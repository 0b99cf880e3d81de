/** What the calls of the interrupt controller bring about, told from the state before: whom a
    preemption, a cancellation or a client abort reaches, and what every call answers. */
module InterruptEffects {
  import opened Common
  import opened Sorting
  import opened Interrupts
  import opened InterruptSafety
  import opened InterruptLedger

  /** The lease is the generation of the session that is going on. */
  ghost predicate Live(irq: Irq, id: string, i: nat) {
    i < |irq.leases| && irq.leases[i].session == id && !irq.leases[i].ended
  }

  /** A generation that is going on, and that nobody has aborted yet. */
  ghost predicate Interruptible(irq: Irq, id: string, i: nat) {
    Live(irq, id, i) && irq.leases[i].reason == None
  }

  lemma LiveIsActive(cfg: Limits, irq: Irq, id: string, i: nat)
    requires Inv(cfg, irq)
    ensures Live(irq, id, i) <==> id in irq.sessions && irq.sessions[id].active == Some(i)
  {
  }

  lemma AbortableIsInterruptible(cfg: Limits, irq: Irq, id: string)
    requires Inv(cfg, irq)
    ensures Abortable(irq, id).None? <==> forall i: nat :: !Interruptible(irq, id, i)
    ensures forall i: nat :: Interruptible(irq, id, i) <==> Abortable(irq, id) == Some(i)
  {
    forall i: nat ensures Interruptible(irq, id, i) <==> Abortable(irq, id) == Some(i) {
      LiveIsActive(cfg, irq, id, i);
    }
  }

  // ---- sessions that are reached ---------------------------------------------------------

  /** There is room for the session: it is there already, or some other one can go. */
  ghost predicate HasRoom(cfg: Limits, irq: Irq, id: string) {
    id in irq.sessions || |irq.order| < cfg.maxSessions || exists x :: x in irq.sessions && irq.sessions[x].active.None?
  }

  lemma ReachedIfRoom(cfg: Limits, irq: Irq, id: string, now: int)
    requires Inv(cfg, irq)
    ensures Reach(cfg, irq, id, true, now).1 <==> HasRoom(cfg, irq, id)
  {
    RefusedExactlyWhenAllActive(cfg, irq, id, now);
  }

  lemma ReachKeepsLeases(cfg: Limits, irq: Irq, id: string, create: bool, now: int)
    requires Inv(cfg, irq)
    ensures var t := Reach(cfg, irq, id, create, now).0;
            && Inv(cfg, t) && t.leases == irq.leases && t.sequence == irq.sequence && t.clients == irq.clients
            && (forall x, i :: Live(t, x, i) <==> Live(irq, x, i))
            && (forall x, i :: Interruptible(t, x, i) <==> Interruptible(irq, x, i))
  {
    ReachFacts(cfg, irq, id, create, now);
  }

  /** Reaching a session touches it, and no other; what it holds stays, unless it is too old. */
  lemma ReachTouches(cfg: Limits, irq: Irq, id: string, create: bool, now: int)
    requires Inv(cfg, irq)
    ensures var t := Reach(cfg, irq, id, create, now).0;
            && (id in t.sessions ==> t.sessions[id].lastTouched == now)
            && (forall x :: x in t.sessions && x != id ==> x in irq.sessions && t.sessions[x] == irq.sessions[x])
            && (id in irq.sessions && (irq.sessions[id].active.Some? || irq.sessions[id].lastTouched > now - cfg.ttl) ==>
                  id in t.sessions && t.sessions[id].active == irq.sessions[id].active && t.sessions[id].pending == irq.sessions[id].pending)
            && (id in t.sessions && !(id in irq.sessions && (irq.sessions[id].active.Some? || irq.sessions[id].lastTouched > now - cfg.ttl)) ==>
                  create && t.sessions[id].active == None && t.sessions[id].pending == [])
  {
    ClearFacts(cfg, irq, id, create, now);
    ExpireFacts(cfg, irq, now);
  }

  // ---- what is queued ----------------------------------------------------------------------

  /** A notice that can be queued. */
  predicate Proper(notice: Notice) { notice.Notice? && 0 <= notice.priority <= 255 }

  /** The event says what the notice says, with the time and the next number. */
  ghost predicate Says(event: Event, notice: Notice, now: int, number: nat) {
    && notice.Notice? && event.id == notice.id && event.token == notice.token && event.source == notice.source
    && event.priority == notice.priority && event.detail == notice.detail && event.createdAt == now && event.sequence == number
  }

  /** An injection is answered exactly if there is room and the notice is proper; it uses up a number
      whenever there is room. Its event says what the notice says, and leases stay as they are. */
  lemma InjectionSays(cfg: Limits, irq: Irq, id: string, notice: Notice, now: int)
    requires Inv(cfg, irq)
    ensures var (next, r) := Inject(cfg, irq, Some(id), notice, now);
            && (r.Ok? <==> HasRoom(cfg, irq, id) && Proper(notice))
            && (r.Err? ==> r.error == if HasRoom(cfg, irq, id) then BadEvent else Capacity)
            && next.sequence == irq.sequence + (if HasRoom(cfg, irq, id) then 1 else 0)
            && next.leases == irq.leases && next.clients == irq.clients
            && (r.Ok? ==> Says(r.value.event, notice, now, irq.sequence) && id in next.sessions
                          && (r.value.accepted <==> r.value.event in next.sessions[id].pending))
  {
    ReachedIfRoom(cfg, irq, id, now);
    ReachKeepsLeases(cfg, irq, id, true, now);
  }

  /** In every run, each queue is in order: higher priorities first, and equal ones as they came. */
  lemma QueuesAreInOrder(cfg: Limits, moments: seq<Moment>, id: string)
    requires Sensible(cfg) && Kept(cfg, EmptyWorld) && id in Run(cfg, EmptyWorld, moments).irq.sessions
    ensures var pending := Run(cfg, EmptyWorld, moments).irq.sessions[id].pending;
            && |pending| <= cfg.maxPending
            && forall i, j :: 0 <= i < j < |pending| ==>
                 || pending[i].priority > pending[j].priority
                 || (pending[i].priority == pending[j].priority && pending[i].sequence < pending[j].sequence)
  {
    var w := Run(cfg, EmptyWorld, moments);
    QueuesAreHeads(cfg, moments, id);
    QueueIsInOrder(w, w.book.open[id], w.irq.sessions[id].pending, cfg.maxPending);
  }

  lemma QueueIsInOrder(w: World, batch: nat, pending: seq<Event>, k: nat)
    requires Numbered(w) && pending == Take(k, Sort(EventOrder(), Offered(w.book.log, batch)))
    ensures |pending| <= k
    ensures forall i, j :: 0 <= i < j < |pending| ==>
              || pending[i].priority > pending[j].priority
              || (pending[i].priority == pending[j].priority && pending[i].sequence < pending[j].sequence)
  {
    var sorted := Sort(EventOrder(), Offered(w.book.log, batch));
    EventsAreOrdered();
    SortSorted(EventOrder(), Offered(w.book.log, batch));
    SortedAreDistinct(w, batch);
    forall i, j | 0 <= i < j < |pending|
      ensures || pending[i].priority > pending[j].priority
              || (pending[i].priority == pending[j].priority && pending[i].sequence < pending[j].sequence)
    {
      assert !EventOrder()(sorted[j], sorted[i]) && sorted[i].sequence != sorted[j].sequence;
    }
  }

  /** The events of a queue carry different numbers. */
  lemma SortedAreDistinct(w: World, batch: nat)
    requires Numbered(w)
    ensures var sorted := Sort(EventOrder(), Offered(w.book.log, batch));
            forall i, j :: 0 <= i < j < |sorted| ==> sorted[i].sequence != sorted[j].sequence
  {
    OfferedRise(w.book.log, batch);
    SortMembers(EventOrder(), Offered(w.book.log, batch));
    NumbersSurvive(Offered(w.book.log, batch), Sort(EventOrder(), Offered(w.book.log, batch)));
  }

  ghost predicate Rising(s: seq<Event>) {
    forall i, j :: 0 <= i < j < |s| ==> s[i].sequence < s[j].sequence
  }

  lemma {:induction false} OfferedRise(log: seq<Record>, batch: nat)
    requires forall i, j :: 0 <= i < j < |log| ==> log[i].event.sequence < log[j].event.sequence
    ensures Rising(Offered(log, batch))
  {
    if log != [] {
      var front, last := log[..|log| - 1], log[|log| - 1];
      OfferedRise(front, batch);
      OfferedMembers(front, batch);
      var s := Offered(front, batch);
      forall k | 0 <= k < |s| ensures s[k].sequence < last.event.sequence {
        assert s[k] in s;
        var i :| 0 <= i < |front| && front[i] == Record(s[k], batch);
        assert log[i] == front[i];
      }
    }
  }

  lemma NumbersSurvive(a: seq<Event>, b: seq<Event>)
    requires multiset(a) == multiset(b) && Rising(a)
    ensures forall i, j :: 0 <= i < j < |b| ==> b[i].sequence != b[j].sequence
  {
    MembersAgree(a, b);
    forall i, j | 0 <= i < j < |b| ensures b[i].sequence != b[j].sequence {
      assert b[i] in a && b[j] in a;
      if b[i].sequence == b[j].sequence {
        var x :| 0 <= x < |a| && a[x] == b[i];
        var y :| 0 <= y < |a| && a[y] == b[j];
        OnceNumbered(a, x);
        TwiceThere(b, i, j);
      }
    }
  }

  lemma OnceNumbered(a: seq<Event>, x: int)
    requires 0 <= x < |a| && Rising(a)
    ensures multiset(a)[a[x]] == 1
  {
    assert a == a[..x] + [a[x]] + a[x + 1..];
    assert a[x] !in a[..x] && a[x] !in a[x + 1..];
  }

  lemma TwiceThere(b: seq<Event>, i: int, j: int)
    requires 0 <= i < j < |b| && b[i] == b[j]
    ensures multiset(b)[b[i]] >= 2
  {
    assert b == b[..i] + [b[i]] + b[i + 1..j] + [b[j]] + b[j + 1..];
  }

  // ---- preemption --------------------------------------------------------------------------

  lemma PreemptIsInject(cfg: Limits, irq: Irq, id: string, notice: Notice, now: int)
    requires Inv(cfg, irq)
    ensures var t := Reach(cfg, irq, id, true, now).0;
            HasRoom(cfg, irq, id) ==>
              && Inv(cfg, t) && HasRoom(cfg, t, id) && t.sequence == irq.sequence && t.leases == irq.leases
              && Inv(cfg, Inject(cfg, t, Some(id), notice, now).0)
              && Preempt(cfg, irq, Some(id), notice, now)
                 == Interrupt(Inject(cfg, t, Some(id), notice, now).0, id, Inject(cfg, t, Some(id), notice, now).1)
    ensures !HasRoom(cfg, irq, id) ==> Preempt(cfg, irq, Some(id), notice, now) == (Reach(cfg, irq, id, true, now).0, Err(Capacity))
  {
    ReachedIfRoom(cfg, irq, id, now);
    ReachKeepsLeases(cfg, irq, id, true, now);
    if HasRoom(cfg, irq, id) { InjectKeepsInv(cfg, Reach(cfg, irq, id, true, now).0, Some(id), notice, now); }
  }

  /** The lease i is aborted for a reason, and nothing else happens to any lease. */
  ghost predicate Aborted(irq: Irq, next: Irq, i: nat, reason: Reason) {
    && i < |irq.leases| && |next.leases| == |irq.leases|
    && next.leases[i] == irq.leases[i].(reason := Some(reason))
    && forall j :: 0 <= j < |irq.leases| && j != i ==> next.leases[j] == irq.leases[j]
  }

  /** A preemption is answered exactly as an injection would be. If its event is accepted while the
      session has a generation that nobody aborted, that generation is aborted by the event, and
      the answer names its request; otherwise no lease changes and the answer says so. */
  lemma PreemptionReaches(cfg: Limits, irq: Irq, id: string, notice: Notice, now: int)
    requires Inv(cfg, irq)
    ensures var (next, r) := Preempt(cfg, irq, Some(id), notice, now);
            && (r.Ok? <==> HasRoom(cfg, irq, id) && Proper(notice))
            && (r.Ok? ==> Says(r.value.queued.event, notice, now, irq.sequence))
            && (forall i: nat :: r.Ok? && r.value.queued.accepted && Interruptible(irq, id, i) ==>
                  && r.value.preempted && r.value.requestId == Some(irq.leases[i].requestId)
                  && Aborted(irq, next, i, ByPreemption(r.value.queued.event)))
            && (r.Ok? && (!r.value.queued.accepted || forall i: nat :: !Interruptible(irq, id, i)) ==>
                  !r.value.preempted && r.value.requestId == None && next.leases == irq.leases)
            && (r.Err? ==> next.leases == irq.leases)
  {
    PreemptIsInject(cfg, irq, id, notice, now);
    if HasRoom(cfg, irq, id) {
      var t := Reach(cfg, irq, id, true, now).0;
      var (u, queued) := Inject(cfg, t, Some(id), notice, now);
      InjectionSays(cfg, t, id, notice, now);
      InterruptReaches(cfg, u, id, queued);
      SameInterruptible(irq, u, id);
    } else {
      ReachKeepsLeases(cfg, irq, id, true, now);
    }
  }

  lemma SameInterruptible(irq: Irq, u: Irq, id: string)
    requires u.leases == irq.leases
    ensures forall i: nat :: Interruptible(u, id, i) <==> Interruptible(irq, id, i)
  {
  }

  lemma InterruptReaches(cfg: Limits, u: Irq, id: string, queued: Result<Queued, Fault>)
    requires Inv(cfg, u)
    ensures var (next, r) := Interrupt(u, id, queued);
            && (r.Ok? <==> queued.Ok?) && (r.Ok? ==> r.value.queued == queued.value)
            && (forall i: nat :: r.Ok? && queued.value.accepted && Interruptible(u, id, i) ==>
                  && r.value.preempted && r.value.requestId == Some(u.leases[i].requestId)
                  && Aborted(u, next, i, ByPreemption(queued.value.event)))
            && (r.Ok? && (!queued.value.accepted || forall i: nat :: !Interruptible(u, id, i)) ==>
                  !r.value.preempted && r.value.requestId == None && next.leases == u.leases)
            && (r.Err? ==> next.leases == u.leases)
  {
    AbortableIsInterruptible(cfg, u, id);
  }

  // ---- cancellation ------------------------------------------------------------------------

  /** A cancellation answers true, and aborts, exactly if there is a generation that nobody aborted
      and a proper reason; a bad reason is only noticed if there is something to cancel. */
  lemma CancellationReaches(cfg: Limits, irq: Irq, id: string, reason: Option<string>, now: int)
    requires Inv(cfg, irq)
    ensures var (next, r) := Cancel(cfg, irq, Some(id), reason, now);
            && (forall i: nat :: Interruptible(irq, id, i) && reason.Some? ==>
                  r == Ok(true) && Aborted(irq, next, i, ByCancel(reason.value)))
            && ((exists i :: Interruptible(irq, id, i)) && reason.None? ==> r == Err(BadReason) && next.leases == irq.leases)
            && ((forall i: nat :: !Interruptible(irq, id, i)) ==> r == Ok(false) && next.leases == irq.leases)
  {
    ReachKeepsLeases(cfg, irq, id, false, now);
    var t := Reach(cfg, irq, id, false, now).0;
    AbortableIsInterruptible(cfg, t, id);
    SameInterruptible(irq, t, id);
  }

  // ---- the client --------------------------------------------------------------------------

  /** A client's abort reaches exactly the generations that go on, listen to it and were not aborted. */
  lemma ClientAbortReaches(irq: Irq, signal: nat, i: nat)
    requires Listed(irq) && signal !in irq.clients && i < |irq.leases|
    ensures var next := ClientAbort(irq, signal);
            && |next.leases| == |irq.leases| && next.clients == irq.clients + {signal} && next.sessions == irq.sessions
            && (irq.leases[i].client == Some(signal) && !irq.leases[i].ended && irq.leases[i].reason == None ==>
                  next.leases[i] == irq.leases[i].(reason := Some(ByClient(signal))))
            && (!(irq.leases[i].client == Some(signal) && !irq.leases[i].ended && irq.leases[i].reason == None) ==>
                  next.leases[i] == irq.leases[i])
  {
  }

  /** No generation goes on unaborted whose client has aborted. */
  ghost predicate Heard(irq: Irq) {
    forall i :: 0 <= i < |irq.leases| ==> LeaseHears(irq.leases[i], irq.clients)
  }

  predicate LeaseHears(lease: Lease, clients: set<nat>) {
    !lease.ended && lease.client.Some? && lease.client.value in clients ==> lease.reason.Some?
  }

  /** A new generation of the session, as it was asked for. */
  ghost predicate Begun(irq: Irq, next: Irq, id: string, client: Client, requestId: Option<string>, priority: int, now: int) {
    && |next.leases| == |irq.leases| + 1 && next.leases[..|irq.leases|] == irq.leases
    && var lease := next.leases[|irq.leases|];
       && lease.session == id && Some(lease.requestId) == requestId && lease.priority == priority && lease.startedAt == now
       && !lease.ended && Live(next, id, |irq.leases|)
       && (client.NoSignal? ==> lease.client == None && lease.reason == None)
       && (client.Signal? ==> lease.client == Some(client.id)
                              && lease.reason == if client.id in irq.clients then Some(ByClient(client.id)) else None)
  }

  /** A generation begins exactly if there is room, none goes on in the session, and the arguments are
      proper; the complaints come in this order. */
  lemma BeginsExactly(cfg: Limits, irq: Irq, id: string, client: Client, requestId: Option<string>, priority: int, now: int)
    requires Inv(cfg, irq)
    ensures var (next, r) := Begin(cfg, irq, Some(id), client, requestId, priority, now);
            && next.clients == irq.clients
            && (!HasRoom(cfg, irq, id) ==> r == Err(Capacity))
            && (HasRoom(cfg, irq, id) && (exists i :: Live(irq, id, i)) ==> r == Err(Conflict))
            && (HasRoom(cfg, irq, id) && (forall i :: !Live(irq, id, i)) ==>
                  && (!(0 <= priority <= 255) ==> r == Err(BadPriority))
                  && (0 <= priority <= 255 && client.NotASignal? ==> r == Err(BadSignal))
                  && (0 <= priority <= 255 && !client.NotASignal? && requestId.None? ==> r == Err(BadRequest))
                  && (0 <= priority <= 255 && !client.NotASignal? && requestId.Some? ==>
                        r == Ok(|irq.leases|) && Begun(irq, next, id, client, requestId, priority, now)))
            && (r.Err? ==> next.leases == irq.leases)
  {
    ReachedIfRoom(cfg, irq, id, now);
    ReachKeepsLeases(cfg, irq, id, true, now);
    if HasRoom(cfg, irq, id) {
      var t := Reach(cfg, irq, id, true, now).0;
      StartsExactly(cfg, t, id, client, requestId, priority, now);
    }
  }

  lemma StartsExactly(cfg: Limits, t: Irq, id: string, client: Client, requestId: Option<string>, priority: int, now: int)
    requires Inv(cfg, t) && id in t.sessions
    ensures var (next, r) := Start(t, id, client, requestId, priority, now);
            && next.clients == t.clients
            && ((exists i :: Live(t, id, i)) ==> r == Err(Conflict))
            && ((forall i :: !Live(t, id, i)) ==>
                  && (!(0 <= priority <= 255) ==> r == Err(BadPriority))
                  && (0 <= priority <= 255 && client.NotASignal? ==> r == Err(BadSignal))
                  && (0 <= priority <= 255 && !client.NotASignal? && requestId.None? ==> r == Err(BadRequest))
                  && (0 <= priority <= 255 && !client.NotASignal? && requestId.Some? ==>
                        r == Ok(|t.leases|) && Begun(t, next, id, client, requestId, priority, now)))
            && (r.Err? ==> next.leases == t.leases)
  {
    if t.sessions[id].active.Some? { LiveIsActive(cfg, t, id, t.sessions[id].active.value); }
    if i: nat :| Live(t, id, i) { LiveIsActive(cfg, t, id, i); }
  }

  /** Ending a generation answers true once; its session is then free, and touched. */
  lemma EndsOnce(cfg: Limits, irq: Irq, i: nat, now: int)
    requires Inv(cfg, irq) && i < |irq.leases|
    ensures var (next, first) := End(irq, i, now);
            && (first <==> !irq.leases[i].ended)
            && (!first ==> next == irq)
            && (first ==>
                  && |next.leases| == |irq.leases| && next.leases[i] == irq.leases[i].(ended := true)
                  && (forall j :: 0 <= j < |irq.leases| && j != i ==> next.leases[j] == irq.leases[j])
                  && irq.leases[i].session in next.sessions && next.sessions[irq.leases[i].session].lastTouched == now
                  && (forall j :: !Live(next, irq.leases[i].session, j)))
  {
    EndKeepsInv(cfg, irq, i, now);
    if !irq.leases[i].ended {
      var next, id := End(irq, i, now).0, irq.leases[i].session;
      LiveIsActive(cfg, irq, id, i);
      forall j ensures !Live(next, id, j) { LiveIsActive(cfg, next, id, j); }
    }
  }

  lemma CallIsHeard(cfg: Limits, irq: Irq, call: Call, now: int)
    requires Inv(cfg, irq) && Heard(irq)
    ensures Heard(Do(cfg, irq, call, now))
  {
    var next := Do(cfg, irq, call, now);
    if call.ClientSignals? {
      SignalIsHeard(irq, call.signal);
    } else if call.DoBegin? {
      BeginIsHeard(cfg, irq, call, now);
    } else {
      AbortsOnce(cfg, irq, call, now);
      OtherCalls(cfg, irq, call, now);
      forall i | 0 <= i < |next.leases| ensures LeaseHears(next.leases[i], next.clients) {
        assert LeaseHears(irq.leases[i], irq.clients);
      }
    }
  }

  lemma SignalIsHeard(irq: Irq, signal: nat)
    requires Listed(irq) && Heard(irq)
    ensures Heard(ClientAbort(irq, signal))
  {
    var next := ClientAbort(irq, signal);
    if signal !in irq.clients {
      forall i | 0 <= i < |next.leases| ensures LeaseHears(next.leases[i], next.clients) {
        ClientAbortReaches(irq, signal, i);
        assert LeaseHears(irq.leases[i], irq.clients);
      }
    }
  }

  lemma BeginIsHeard(cfg: Limits, irq: Irq, call: Call, now: int)
    requires Inv(cfg, irq) && Heard(irq) && call.DoBegin?
    ensures Heard(Do(cfg, irq, call, now))
  {
    if call.session.Some? {
      var (next, r) := Begin(cfg, irq, call.session, call.client, call.requestId, call.priority, now);
      BeginsExactly(cfg, irq, call.session.value, call.client, call.requestId, call.priority, now);
      forall i | 0 <= i < |next.leases| ensures LeaseHears(next.leases[i], next.clients) {
        if i < |irq.leases| {
          assert LeaseHears(irq.leases[i], irq.clients);
          assert r.Ok? ==> next.leases[i] == next.leases[..|irq.leases|][i];
        }
      }
    }
  }

  lemma OtherCalls(cfg: Limits, irq: Irq, call: Call, now: int)
    requires Inv(cfg, irq) && !call.ClientSignals? && !call.DoBegin?
    ensures Do(cfg, irq, call, now).clients == irq.clients && |Do(cfg, irq, call, now).leases| == |irq.leases|
  {
    match call
    case DoEnd(_) =>
    case DoInject(session, notice) => if session.Some? { InjectionSays(cfg, irq, session.value, notice, now); }
    case DoPreempt(session, notice) => if session.Some? { PreemptClients(cfg, irq, session.value, notice, now); }
    case DoCancel(session, reason) => if session.Some? { ReachKeepsLeases(cfg, irq, session.value, false, now); }
    case DoConsume(session) => if session.Some? { ReachKeepsLeases(cfg, irq, session.value, false, now); }
    case DoApply(session, _) => if session.Some? { ReachKeepsLeases(cfg, irq, session.value, false, now); }
    case DoLook(session) => if session.Some? { ReachKeepsLeases(cfg, irq, session.value, false, now); }
    case DoExpire =>
  }

  lemma PreemptClients(cfg: Limits, irq: Irq, id: string, notice: Notice, now: int)
    requires Inv(cfg, irq)
    ensures var next := Preempt(cfg, irq, Some(id), notice, now).0; next.clients == irq.clients && |next.leases| == |irq.leases|
  {
    ReachKeepsLeases(cfg, irq, id, true, now);
    PreemptIsInject(cfg, irq, id, notice, now);
    if HasRoom(cfg, irq, id) { InjectionSays(cfg, Reach(cfg, irq, id, true, now).0, id, notice, now); }
  }

  /** In every run: once its client has aborted, a generation that goes on is aborted, whether the
      client aborted before it began or after. */
  lemma {:induction false} ClientsAreHeard(cfg: Limits, moments: seq<Moment>)
    requires Sensible(cfg) && Kept(cfg, EmptyWorld)
    ensures Heard(Run(cfg, EmptyWorld, moments).irq)
  {
    if moments != [] {
      var front, last := moments[..|moments| - 1], moments[|moments| - 1];
      ClientsAreHeard(cfg, front);
      CallIsHeard(cfg, Run(cfg, EmptyWorld, front).irq, last.call, last.now);
    }
  }

  /** A snapshot shows the session as it is after the clock was looked at: its queue, and its generation
      if it has one; a session that is gone or never was shows nothing. */
  lemma LookShows(cfg: Limits, irq: Irq, id: string, now: int)
    requires Listed(irq)
    ensures var (next, r) := Look(cfg, irq, Some(id), now);
            && next == Reach(cfg, irq, id, false, now).0 && r.Ok?
            && (id !in next.sessions ==> r.value == (None, []))
            && (id in next.sessions ==>
                  && r.value.1 == next.sessions[id].pending
                  && (r.value.0.Some? <==> next.sessions[id].active.Some? && next.sessions[id].active.value < |next.leases|)
                  && (r.value.0.Some? ==> r.value.0.value == next.leases[next.sessions[id].active.value]))
  {
  }
}
