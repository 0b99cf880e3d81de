/** The interrupt controller: per-session queues of bounded length, one generation lease per
    session, expiry by age and eviction by capacity. Every public call reads the clock once;
    a session id is given cleaned, or as None when cleaning rejects it. */
module Interrupts {
  import opened Common
  import opened Sorting

  datatype Limits = Limits(maxPending: nat, maxSessions: nat, ttl: int)

  predicate Sensible(cfg: Limits) { 1 <= cfg.maxPending <= 32 && 1 <= cfg.maxSessions && 1 <= cfg.ttl }

  datatype Notice = Notice(id: string, token: string, source: string, priority: int, detail: string) | Malformed

  datatype Event = Event(id: string, token: string, source: string, priority: int, detail: string,
                         createdAt: int, sequence: nat)

  /** Why a generation was aborted. */
  datatype Reason = ByClient(signal: nat) | ByPreemption(event: Event) | ByCancel(reason: string)

  /** A generation lease; `reason` is the abort reason that its signal carries, if any. */
  datatype Lease = Lease(session: string, requestId: string, priority: int, startedAt: int,
                         client: Option<nat>, reason: Option<Reason>, ended: bool)

  datatype Session = Session(active: Option<nat>, pending: seq<Event>, lastTouched: int)

  /** Sessions are kept in insertion order; `clients` are the client signals already aborted. */
  datatype Irq = Irq(order: seq<string>, sessions: map<string, Session>, leases: seq<Lease>,
                     sequence: nat, clients: set<nat>)

  const EmptyIrq := Irq([], map[], [], 0, {})

  datatype Fault = BadSession | Capacity | Conflict | BadPriority | BadSignal | BadRequest | BadEvent | BadReason | BadBody | BadLimit

  predicate Comes(a: Event, b: Event) {
    a.priority > b.priority || (a.priority == b.priority && a.sequence < b.sequence)
  }

  /** Higher priority first, then earlier arrival. */
  function EventOrder(): (Event, Event) -> bool {
    (a: Event, b: Event) => Comes(a, b)
  }

  lemma EventsAreOrdered()
    ensures WeakOrder(EventOrder())
  {
    var lt := EventOrder();
    assert forall a: Event :: !lt(a, a);
  }

  /** What a queue keeps of everything offered to it. */
  function Retained(cfg: Limits, offered: seq<Event>): seq<Event> {
    Take(cfg.maxPending, Sort(EventOrder(), offered))
  }

  // ---- sessions -----------------------------------------------------------------------

  predicate Stale(s: Session, threshold: int) { s.active.None? && s.lastTouched <= threshold }

  function FreshOrder(order: seq<string>, sessions: map<string, Session>, threshold: int): (r: seq<string>)
    requires forall id :: id in order ==> id in sessions
  {
    if order == [] then []
    else
      var front, id := FreshOrder(order[..|order| - 1], sessions, threshold), order[|order| - 1];
      if Stale(sessions[id], threshold) then front else front + [id]
  }

  function FreshSessions(sessions: map<string, Session>, threshold: int): map<string, Session> {
    map id | id in sessions && !Stale(sessions[id], threshold) :: sessions[id]
  }

  /** The insertion order lists exactly the sessions. */
  ghost predicate Listed(irq: Irq) {
    && NoDuplicates(irq.order)
    && (forall id :: id in irq.order <==> id in irq.sessions)
  }

  lemma {:induction false} FreshOrderFacts(order: seq<string>, sessions: map<string, Session>, threshold: int)
    requires NoDuplicates(order) && forall id :: id in order ==> id in sessions
    ensures NoDuplicates(FreshOrder(order, sessions, threshold))
    ensures forall id :: id in FreshOrder(order, sessions, threshold) <==> id in order && !Stale(sessions[id], threshold)
    ensures |FreshOrder(order, sessions, threshold)| <= |order|
  {
    if order != [] {
      FreshOrderFacts(order[..|order| - 1], sessions, threshold);
      assert order == order[..|order| - 1] + [order[|order| - 1]];
    }
  }

  function ExpireSessions(cfg: Limits, irq: Irq, now: int): (r: Irq)
    requires Listed(irq)
    ensures Listed(r)
  {
    var threshold := now - cfg.ttl;
    FreshOrderFacts(irq.order, irq.sessions, threshold);
    irq.(order := FreshOrder(irq.order, irq.sessions, threshold), sessions := FreshSessions(irq.sessions, threshold))
  }

  /** The first of the least recently touched idle sessions. */
  function OldestIdle(order: seq<string>, sessions: map<string, Session>): Option<string>
    requires forall id :: id in order ==> id in sessions
  {
    if order == [] then None
    else
      var best, id := OldestIdle(order[..|order| - 1], sessions), order[|order| - 1];
      if sessions[id].active.Some? then best
      else if best.None? || (best.value in sessions && sessions[id].lastTouched < sessions[best.value].lastTouched) then Some(id)
      else best
  }

  lemma {:induction false} OldestIdleIsLeast(order: seq<string>, sessions: map<string, Session>)
    requires forall id :: id in order ==> id in sessions
    ensures var best := OldestIdle(order, sessions);
            if best.None? then forall id :: id in order ==> sessions[id].active.Some?
            else && best.value in order && sessions[best.value].active.None?
                 && forall id :: id in order && sessions[id].active.None? ==> sessions[best.value].lastTouched <= sessions[id].lastTouched
  {
    if order != [] {
      OldestIdleIsLeast(order[..|order| - 1], sessions);
      assert order == order[..|order| - 1] + [order[|order| - 1]];
    }
  }

  function Without(order: seq<string>, id: string): (r: seq<string>)
  {
    if order == [] then []
    else if order[0] == id then Without(order[1..], id)
    else [order[0]] + Without(order[1..], id)
  }

  lemma {:induction false} WithoutFacts(order: seq<string>, id: string)
    requires NoDuplicates(order)
    ensures NoDuplicates(Without(order, id))
    ensures forall x :: x in Without(order, id) <==> x in order && x != id
    ensures |Without(order, id)| == |order| - if id in order then 1 else 0
  {
    if order != [] {
      WithoutFacts(order[1..], id);
      assert order == [order[0]] + order[1..];
      assert order[0] !in order[1..];
    }
  }

  function Remove(irq: Irq, id: string): (r: Irq)
    requires Listed(irq)
    ensures Listed(r)
  {
    WithoutFacts(irq.order, id);
    irq.(order := Without(irq.order, id), sessions := irq.sessions - {id})
  }

  function EvictOldestIdle(irq: Irq): (r: Irq)
    requires Listed(irq)
    ensures Listed(r)
  {
    var oldest := OldestIdle(irq.order, irq.sessions);
    if oldest.None? then irq else Remove(irq, oldest.value)
  }

  /** A table of sessions with room for one more, if there is an idle one to give up. */
  function MakeRoom(cfg: Limits, irq: Irq): (r: Irq)
    requires Listed(irq)
    ensures Listed(r)
  {
    if |irq.order| >= cfg.maxSessions then EvictOldestIdle(irq) else irq
  }

  function Put(irq: Irq, id: string, s: Session): (r: Irq)
    requires Listed(irq)
    ensures Listed(r)
  {
    irq.(order := if id in irq.sessions then irq.order else irq.order + [id], sessions := irq.sessions[id := s])
  }

  /** What is left of the sessions before `id` is looked up or created. */
  function Clear(cfg: Limits, irq: Irq, id: string, create: bool, now: int): (r: Irq)
    requires Listed(irq)
    ensures Listed(r)
  {
    var e := ExpireSessions(cfg, irq, now);
    if id in e.sessions || !create then e else MakeRoom(cfg, e)
  }

  /** Expires, and then finds, creates and touches a session; false when there is no room. */
  function Reach(cfg: Limits, irq: Irq, id: string, create: bool, now: int): (r: (Irq, bool))
    requires Listed(irq)
    ensures Listed(r.0) && (create && r.1 ==> id in r.0.sessions)
  {
    var c := Clear(cfg, irq, id, create, now);
    if id in c.sessions then (Put(c, id, c.sessions[id].(lastTouched := now)), true)
    else if !create then (c, true)
    else if |c.order| >= cfg.maxSessions then (c, false)
    else (Put(c, id, Session(None, [], now)), true)
  }

  // ---- calls --------------------------------------------------------------------------

  datatype Client = NoSignal | Signal(id: nat) | NotASignal

  /** Starts a generation in a session that was reached. */
  function Start(t: Irq, id: string, client: Client, requestId: Option<string>, priority: int, now: int): (r: (Irq, Result<nat, Fault>))
    requires Listed(t) && id in t.sessions
    ensures Listed(r.0)
  {
    if t.sessions[id].active.Some? then (t, Err(Conflict))
    else if priority < 0 || priority > 255 then (t, Err(BadPriority))
    else if client.NotASignal? then (t, Err(BadSignal))
    else if requestId.None? then (t, Err(BadRequest))
    else
      var reason := if client.Signal? && client.id in t.clients then Some(ByClient(client.id)) else None;
      var lease := Lease(id, requestId.value, priority, now, if client.Signal? then Some(client.id) else None, reason, false);
      (Put(t, id, t.sessions[id].(active := Some(|t.leases|))).(leases := t.leases + [lease]), Ok(|t.leases|))
  }

  /** Starts a generation; `requestId` is given cleaned, or as None when cleaning rejects it. */
  function Begin(cfg: Limits, irq: Irq, session: Option<string>, client: Client, requestId: Option<string>, priority: int, now: int):
    (r: (Irq, Result<nat, Fault>))
    requires Listed(irq)
    ensures Listed(r.0)
  {
    if session.None? then (irq, Err(BadSession))
    else
      var (t, ok) := Reach(cfg, irq, session.value, true, now);
      if !ok then (t, Err(Capacity)) else Start(t, session.value, client, requestId, priority, now)
  }

  /** Ends a lease: false when it has ended before. */
  function End(irq: Irq, lease: nat, now: int): (r: (Irq, bool))
    requires Listed(irq)
    ensures Listed(r.0)
  {
    if lease >= |irq.leases| || irq.leases[lease].ended then (irq, false)
    else
      var id := irq.leases[lease].session;
      var ended := irq.(leases := irq.leases[lease := irq.leases[lease].(ended := true)]);
      if id !in irq.sessions then (ended, true)
      else
        var s := irq.sessions[id];
        (Put(ended, id, s.(active := if s.active == Some(lease) then None else s.active, lastTouched := now)), true)
  }

  datatype Queued = Queued(accepted: bool, event: Event)

  function EventOf(notice: Notice, now: int, sequence: nat): Event
    requires notice.Notice?
  {
    Event(notice.id, notice.token, notice.source, notice.priority, notice.detail, now, sequence)
  }

  /** Queues an event in a session that was reached. An invalid notice uses up a number too. */
  function Enqueue(cfg: Limits, t: Irq, id: string, notice: Notice, now: int): (r: (Irq, Result<Queued, Fault>))
    requires Listed(t) && id in t.sessions
    ensures Listed(r.0) && id in r.0.sessions
  {
    var numbered := t.(sequence := t.sequence + 1);
    if notice.Malformed? || notice.priority < 0 || notice.priority > 255 then (numbered, Err(BadEvent))
    else
      var event := EventOf(notice, now, t.sequence);
      var retained := Retained(cfg, t.sessions[id].pending + [event]);
      (Put(numbered, id, t.sessions[id].(pending := retained)), Ok(Queued(event in retained, event)))
  }

  function Inject(cfg: Limits, irq: Irq, session: Option<string>, notice: Notice, now: int): (r: (Irq, Result<Queued, Fault>))
    requires Listed(irq)
    ensures Listed(r.0)
  {
    if session.None? then (irq, Err(BadSession))
    else
      var (t, ok) := Reach(cfg, irq, session.value, true, now);
      if !ok then (t, Err(Capacity)) else Enqueue(cfg, t, session.value, notice, now)
  }

  function Abort(irq: Irq, lease: nat, reason: Reason): (r: Irq)
    requires lease < |irq.leases| && Listed(irq)
    ensures Listed(r)
  {
    irq.(leases := irq.leases[lease := irq.leases[lease].(reason := Some(reason))])
  }

  datatype Preempted = Preempted(queued: Queued, preempted: bool, requestId: Option<string>)

  /** The active lease of a session whose signal is not aborted yet. */
  function Abortable(irq: Irq, id: string): Option<nat> {
    if id in irq.sessions && irq.sessions[id].active.Some? && irq.sessions[id].active.value < |irq.leases|
       && irq.leases[irq.sessions[id].active.value].reason.None?
    then irq.sessions[id].active else None
  }

  /** Aborts the active generation for an event that was accepted. */
  function Interrupt(u: Irq, id: string, queued: Result<Queued, Fault>): (r: (Irq, Result<Preempted, Fault>))
    requires Listed(u)
    ensures Listed(r.0)
  {
    if queued.Err? then (u, Err(queued.error))
    else
      var active := Abortable(u, id);
      if queued.value.accepted && active.Some? then
        (Abort(u, active.value, ByPreemption(queued.value.event)),
         Ok(Preempted(queued.value, true, Some(u.leases[active.value].requestId))))
      else (u, Ok(Preempted(queued.value, false, None)))
  }

  function Preempt(cfg: Limits, irq: Irq, session: Option<string>, notice: Notice, now: int): (r: (Irq, Result<Preempted, Fault>))
    requires Listed(irq)
    ensures Listed(r.0)
  {
    if session.None? then (irq, Err(BadSession))
    else
      var (t, ok) := Reach(cfg, irq, session.value, true, now);
      if !ok then (t, Err(Capacity))
      else
        var (u, queued) := Inject(cfg, t, session, notice, now);
        Interrupt(u, session.value, queued)
  }

  /** Cancels the active generation; the reason is only checked when there is one to cancel. */
  function Cancel(cfg: Limits, irq: Irq, session: Option<string>, reason: Option<string>, now: int): (r: (Irq, Result<bool, Fault>))
    requires Listed(irq)
    ensures Listed(r.0)
  {
    if session.None? then (irq, Err(BadSession))
    else
      var (t, _) := Reach(cfg, irq, session.value, false, now);
      var active := Abortable(t, session.value);
      if active.None? then (t, Ok(false))
      else if reason.None? then (t, Err(BadReason))
      else (Abort(t, active.value, ByCancel(reason.value)), Ok(true))
  }

  function Consume(cfg: Limits, irq: Irq, session: Option<string>, now: int): (r: (Irq, Result<seq<Event>, Fault>))
    requires Listed(irq)
    ensures Listed(r.0)
  {
    if session.None? then (irq, Err(BadSession))
    else
      var id := session.value;
      var (t, _) := Reach(cfg, irq, id, false, now);
      if id !in t.sessions || t.sessions[id].pending == [] then (t, Ok([]))
      else (Put(t, id, t.sessions[id].(pending := [])), Ok(t.sessions[id].pending))
  }

  datatype Message = Kernel(events: seq<Event>) | Other(text: string)

  /** A request body, as its list of messages; None when it is not an object. */
  function InjectContext(body: Option<seq<Message>>, events: seq<Event>, maxEvents: int): Result<seq<Message>, Fault> {
    if body.None? then Err(BadBody)
    else if maxEvents < 1 || maxEvents > 32 then Err(BadLimit)
    else if events == [] then Ok(body.value)
    else Ok([Kernel(Take(maxEvents, Sort(EventOrder(), events)))] + body.value)
  }

  /** Consumes the pending events and puts them in front of the body. */
  function ApplyPending(cfg: Limits, irq: Irq, session: Option<string>, body: Option<seq<Message>>, now: int):
    (r: (Irq, Result<(seq<Message>, seq<Event>), Fault>))
    requires Listed(irq)
    ensures Listed(r.0)
  {
    var (t, events) := Consume(cfg, irq, session, now);
    if events.Err? then (t, Err(events.error))
    else
      var result := InjectContext(body, events.value, cfg.maxPending);
      (t, if result.Err? then Err(result.error) else Ok((result.value, events.value)))
  }

  function Look(cfg: Limits, irq: Irq, session: Option<string>, now: int): (r: (Irq, Result<(Option<Lease>, seq<Event>), Fault>))
    requires Listed(irq)
    ensures Listed(r.0)
  {
    if session.None? then (irq, Err(BadSession))
    else
      var (t, _) := Reach(cfg, irq, session.value, false, now);
      if session.value !in t.sessions then (t, Ok((None, [])))
      else
        var s := t.sessions[session.value];
        (t, Ok((if s.active.Some? && s.active.value < |t.leases| then Some(t.leases[s.active.value]) else None, s.pending)))
  }

  function ClientAborts(lease: Lease, signal: nat): Lease {
    if lease.client == Some(signal) && !lease.ended && lease.reason.None? then lease.(reason := Some(ByClient(signal))) else lease
  }

  /** A client signal aborts; the leases that still listen to it carry the reason on. */
  function ClientAbort(irq: Irq, signal: nat): (r: Irq)
    requires Listed(irq)
    ensures Listed(r)
  {
    if signal in irq.clients then irq
    else irq.(clients := irq.clients + {signal},
              leases := seq(|irq.leases|, i requires 0 <= i < |irq.leases| => ClientAborts(irq.leases[i], signal)))
  }

  // ---- the invariant ------------------------------------------------------------------

  /** The active lease of a session is its one lease that has not ended. */
  ghost predicate LeasesMatch(irq: Irq) {
    && (forall id :: id in irq.sessions && irq.sessions[id].active.Some? ==>
          && irq.sessions[id].active.value < |irq.leases|
          && irq.leases[irq.sessions[id].active.value].session == id
          && !irq.leases[irq.sessions[id].active.value].ended)
    && (forall i :: 0 <= i < |irq.leases| && !irq.leases[i].ended ==>
          && irq.leases[i].session in irq.sessions
          && irq.sessions[irq.leases[i].session].active == Some(i))
  }

  ghost predicate Inv(cfg: Limits, irq: Irq) {
    Listed(irq) && |irq.order| <= cfg.maxSessions && LeasesMatch(irq)
  }
}
