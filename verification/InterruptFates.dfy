/** How the fate of an event changes: once it is not waiting any more it never changes again, and
    it is delivered only by the call that returns it. */
module InterruptFates {
  import opened Common
  import opened Sorting
  import opened Interrupts
  import opened InterruptSafety
  import opened InterruptLedger

  /** Batches are never reopened, and one that closes as taken holds `delivered`. */
  ghost predicate BatchesMove(book: Book, next: Book, delivered: seq<Event>) {
    && |book.batches| <= |next.batches|
    && forall i :: 0 <= i < |book.batches| ==> BatchMoves(book.batches[i], next.batches[i], delivered)
  }

  predicate BatchMoves(b: Batch, c: Batch, delivered: seq<Event>) {
    && c.session == b.session
    && (!b.state.Open? ==> c == b)
    && (b.state.Open? && c.state.Taken? ==> c.state.events == delivered)
  }

  lemma MovesCompose(a: Book, b: Book, c: Book, delivered: seq<Event>)
    requires BatchesMove(a, b, delivered) && BatchesMove(b, c, delivered)
    ensures BatchesMove(a, c, delivered)
  {
    forall i | 0 <= i < |a.batches| ensures BatchMoves(a.batches[i], c.batches[i], delivered) {
      assert BatchMoves(a.batches[i], b.batches[i], delivered) && BatchMoves(b.batches[i], c.batches[i], delivered);
    }
  }

  lemma DropMoves(book: Book, before: map<string, Session>, kept: set<string>, delivered: seq<Event>)
    ensures BatchesMove(book, DropBook(book, before, kept), delivered)
  {
  }

  lemma NewMoves(book: Book, id: string, delivered: seq<Event>)
    ensures BatchesMove(book, NewBatch(book, id), delivered)
  {
  }

  lemma ReachMoves(cfg: Limits, w: World, id: string, create: bool, now: int, delivered: seq<Event>)
    requires Listed(w.irq)
    ensures BatchesMove(w.book, ReachBook(cfg, w, id, create, now), delivered)
  {
    var kept := Clear(cfg, w.irq, id, create, now).sessions.Keys;
    DropMoves(w.book, w.irq.sessions, kept, delivered);
    NewMoves(DropBook(w.book, w.irq.sessions, kept), id, delivered);
    MovesCompose(w.book, DropBook(w.book, w.irq.sessions, kept), NewBatch(DropBook(w.book, w.irq.sessions, kept), id), delivered);
  }

  lemma DeliverMoves(book: Book, id: string, events: seq<Event>)
    requires id in book.open && book.open[id] < |book.batches| && book.batches[book.open[id]] == Batch(id, Open)
    ensures BatchesMove(book, Deliver(book, id, events), events)
  {
  }

  /** The events that a call hands out. */
  function DeliveredBy(cfg: Limits, irq: Irq, call: Call, now: int): seq<Event>
    requires Listed(irq)
  {
    if (call.DoConsume? || call.DoApply?) && call.session.Some? then Consume(cfg, irq, call.session, now).1.value else []
  }

  lemma ConsumeMoves(cfg: Limits, w: World, id: string, now: int)
    requires Kept(cfg, w)
    ensures BatchesMove(w.book, ConsumeBook(cfg, w, Some(id), now), Consume(cfg, w.irq, Some(id), now).1.value)
  {
    var t, book := Reach(cfg, w.irq, id, false, now).0, ReachBook(cfg, w, id, false, now);
    var delivered := Consume(cfg, w.irq, Some(id), now).1.value;
    ReachFine(cfg, w, id, false, now);
    ReachMoves(cfg, w, id, false, now, delivered);
    ConsumeUnfolds(cfg, w.irq, id, now);
    ConsumeBookUnfolds(cfg, w, id, now);
    if HasPending(t, id) {
      DeliverMoves(book, id, delivered);
      MovesCompose(w.book, book, Deliver(book, id, delivered), delivered);
    }
  }

  lemma InjectMoves(cfg: Limits, w: World, id: string, notice: Notice, now: int)
    requires Listed(w.irq)
    ensures BatchesMove(w.book, InjectBook(cfg, w, Some(id), notice, now), [])
  {
    ReachMoves(cfg, w, id, true, now, []);
    InjectBookUnfolds(cfg, w, id, notice, now);
  }

  lemma SessionMoves(cfg: Limits, w: World, call: Call, id: string, now: int)
    requires Kept(cfg, w) && SessionOf(call) == Some(id) && !call.DoConsume? && !call.DoApply?
    ensures BatchesMove(w.book, NextBook(cfg, w, call, now), [])
  {
    match call
    case DoInject(_, notice) => InjectMoves(cfg, w, id, notice, now);
    case DoPreempt(_, notice) => InjectMoves(cfg, w, id, notice, now);
    case DoBegin(_, _, _, _) => ReachMoves(cfg, w, id, true, now, []);
    case DoCancel(_, _) => ReachMoves(cfg, w, id, false, now, []);
    case DoLook(_) => ReachMoves(cfg, w, id, false, now, []);
  }

  lemma StepMoves(cfg: Limits, w: World, call: Call, now: int)
    requires Kept(cfg, w)
    ensures BatchesMove(w.book, NextBook(cfg, w, call, now), DeliveredBy(cfg, w.irq, call, now))
  {
    if SessionOf(call).Some? {
      if call.DoConsume? || call.DoApply? { ConsumeMoves(cfg, w, SessionOf(call).value, now); }
      else { SessionMoves(cfg, w, call, SessionOf(call).value, now); }
    } else if call.DoExpire? {
      DropMoves(w.book, w.irq.sessions, ExpireSessions(cfg, w.irq, now).sessions.Keys, []);
    }
  }

  /** The event is among the first `maxPending` of its batch. */
  ghost predicate AtHead(cfg: Limits, log: seq<Record>, i: nat)
    requires i < |log|
  {
    log[i].event in Retained(cfg, Offered(log, log[i].batch))
  }

  /** The fate of an event is read off its batch. */
  lemma FateByBatch(cfg: Limits, w: World, i: nat)
    requires Kept(cfg, w) && i < |w.book.log|
    ensures w.book.log[i].batch < |w.book.batches|
    ensures FateOf(w, i) == if !AtHead(cfg, w.book.log, i) then Displaced
                            else match w.book.batches[w.book.log[i].batch].state
                                 case Open => Waiting
                                 case Taken(_) => Delivered
                                 case Lost(_) => Dropped
  {
    var b := w.book.log[i].batch;
    match w.book.batches[b].state
    case Open =>
      var s := w.book.batches[b].session;
      assert w.book.open[s] == b && s in w.irq.sessions;
      assert w.irq.sessions[s].pending == Retained(cfg, Offered(w.book.log, w.book.open[s]));
    case Taken(events) => assert w.book.batches[b].state.events == Retained(cfg, Offered(w.book.log, b));
    case Lost(events) => assert w.book.batches[b].state.events == Retained(cfg, Offered(w.book.log, b));
  }

  lemma RetainedShrinks(cfg: Limits, offered: seq<Event>, x: Event, event: Event)
    requires event in Retained(cfg, offered + [x]) && event != x
    ensures event in Retained(cfg, offered)
  {
    EventsAreOrdered();
    TruncatedSortRefines(EventOrder(), cfg.maxPending, offered, x);
    var kept := Retained(cfg, offered);
    assert Retained(cfg, kept + [x]) == Retained(cfg, offered + [x]);
    RetainedMembers(cfg, kept + [x]);
    assert event in kept + [x];
  }

  lemma HeadShrinks(cfg: Limits, w: World, next: World, i: nat)
    requires LogGrows(w.book.log, w.irq.sequence, next.book.log, next.irq.sequence) && Numbered(w)
    requires i < |w.book.log| && AtHead(cfg, next.book.log, i)
    ensures next.book.log[i] == w.book.log[i] && AtHead(cfg, w.book.log, i)
  {
    var log := w.book.log;
    if next.book.log != log {
      var r := next.book.log[|log|];
      assert next.book.log == log + [r];
      OfferedMore(log, r, log[i].batch);
      assert log[i].event.sequence < r.event.sequence;
      if r.batch == log[i].batch { RetainedShrinks(cfg, Offered(log, log[i].batch), r.event, log[i].event); }
    }
  }

  // ---- what a call hands out ----------------------------------------------------------

  /** The queue that is handed out is the session's own, unless the session is new. */
  lemma HandedOutIsQueue(cfg: Limits, w: World, id: string, now: int)
    requires Kept(cfg, w) && HasPending(Reach(cfg, w.irq, id, false, now).0, id)
    ensures id in Clear(cfg, w.irq, id, false, now).sessions && id in w.irq.sessions
    ensures Reach(cfg, w.irq, id, false, now).0.sessions[id].pending == w.irq.sessions[id].pending
  {
    ReachSessions(cfg, w.irq, id, false, now);
    ClearFacts(cfg, w.irq, id, false, now);
  }

  lemma DeliveryCloses(book: Book, before: map<string, Session>, kept: set<string>, id: string, events: seq<Event>)
    requires id in book.open && id in kept && book.open[id] < |book.batches|
    ensures var dropped := DropBook(book, before, kept);
            && id in dropped.open && dropped.open[id] < |dropped.batches|
            && var next := Deliver(dropped, id, events);
               next.log == book.log && book.open[id] < |next.batches| && next.batches[book.open[id]] == Batch(id, Taken(events))
  {
  }

  /** Every event that a call returns was waiting, and is delivered from then on. */
  lemma ReturnedWasWaiting(cfg: Limits, w: World, next: World, id: string, now: int, i: nat)
    requires Kept(cfg, w) && i < |w.book.log| && w.book.log[i].event in Consume(cfg, w.irq, Some(id), now).1.value
    requires next.book == ConsumeBook(cfg, w, Some(id), now)
    ensures FateOf(w, i) == Waiting
    ensures i < |next.book.log| && FateOf(next, i) == Delivered
  {
    var t, c := Reach(cfg, w.irq, id, false, now).0, Clear(cfg, w.irq, id, false, now);
    ConsumeUnfolds(cfg, w.irq, id, now);
    HandedOutIsQueue(cfg, w, id, now);
    EventsAreConserved(cfg, w, i);
    FateByBatch(cfg, w, i);
    assert w.book.open[id] == w.book.log[i].batch;
    DeliveryCloses(w.book, w.irq.sessions, c.sessions.Keys, id, t.sessions[id].pending);
    ConsumeBookUnfolds(cfg, w, id, now);
    assert next.book == Deliver(DropBook(w.book, w.irq.sessions, c.sessions.Keys), id, t.sessions[id].pending);
  }

  // ---- what is dropped ----------------------------------------------------------------

  /** No open batch of the session is closed as lost. */
  ghost predicate Unlost(book: Book, next: Book, s: string) {
    && |book.batches| <= |next.batches|
    && forall i :: 0 <= i < |book.batches| && book.batches[i].session == s && !book.batches[i].state.Lost? ==>
         next.batches[i].session == s && !next.batches[i].state.Lost?
  }

  lemma DropUnlost(book: Book, before: map<string, Session>, kept: set<string>, s: string)
    requires s in kept
    ensures Unlost(book, DropBook(book, before, kept), s)
  {
  }

  lemma ReachUnlost(cfg: Limits, w: World, id: string, create: bool, now: int, s: string)
    requires Inv(cfg, w.irq) && s in w.irq.sessions && w.irq.sessions[s].active.Some?
    ensures Unlost(w.book, ReachBook(cfg, w, id, create, now), s)
  {
    ClearFacts(cfg, w.irq, id, create, now);
    DropUnlost(w.book, w.irq.sessions, Clear(cfg, w.irq, id, create, now).sessions.Keys, s);
  }

  lemma DeliverUnlost(book: Book, id: string, events: seq<Event>, s: string)
    requires id in book.open && book.open[id] < |book.batches| && book.batches[book.open[id]].session == id
    ensures Unlost(book, Deliver(book, id, events), s)
  {
  }

  lemma ConsumeUnlost(cfg: Limits, w: World, id: string, now: int, s: string)
    requires Kept(cfg, w) && s in w.irq.sessions && w.irq.sessions[s].active.Some?
    ensures Unlost(w.book, ConsumeBook(cfg, w, Some(id), now), s)
  {
    var t, book := Reach(cfg, w.irq, id, false, now).0, ReachBook(cfg, w, id, false, now);
    ReachFine(cfg, w, id, false, now);
    ReachUnlost(cfg, w, id, false, now, s);
    ConsumeBookUnfolds(cfg, w, id, now);
    if HasPending(t, id) { DeliverUnlost(book, id, t.sessions[id].pending, s); }
  }

  lemma InjectUnlost(cfg: Limits, w: World, id: string, notice: Notice, now: int, s: string)
    requires Inv(cfg, w.irq) && s in w.irq.sessions && w.irq.sessions[s].active.Some?
    ensures Unlost(w.book, InjectBook(cfg, w, Some(id), notice, now), s)
  {
    ReachUnlost(cfg, w, id, true, now, s);
    InjectBookUnfolds(cfg, w, id, notice, now);
  }

  lemma QuietUnlost(cfg: Limits, w: World, call: Call, id: string, now: int, s: string)
    requires Inv(cfg, w.irq) && SessionOf(call) == Some(id) && (call.DoBegin? || call.DoCancel? || call.DoLook?)
    requires s in w.irq.sessions && w.irq.sessions[s].active.Some?
    ensures Unlost(w.book, NextBook(cfg, w, call, now), s)
  {
    ReachUnlost(cfg, w, id, call.DoBegin?, now, s);
  }

  lemma InjectionBook(cfg: Limits, w: World, call: Call, notice: Notice, now: int)
    requires Listed(w.irq) && (call.DoInject? || call.DoPreempt?) && call.notice == notice
    ensures NextBook(cfg, w, call, now) == InjectBook(cfg, w, call.session, notice, now)
  {
  }

  lemma SessionUnlost(cfg: Limits, w: World, call: Call, id: string, now: int, s: string)
    requires Kept(cfg, w) && SessionOf(call) == Some(id) && s in w.irq.sessions && w.irq.sessions[s].active.Some?
    ensures Unlost(w.book, NextBook(cfg, w, call, now), s)
  {
    match call
    case DoInject(_, notice) => InjectUnlost(cfg, w, id, notice, now, s); InjectionBook(cfg, w, call, notice, now);
    case DoPreempt(_, notice) => InjectUnlost(cfg, w, id, notice, now, s); InjectionBook(cfg, w, call, notice, now);
    case DoConsume(_) => ConsumeUnlost(cfg, w, id, now, s);
    case DoApply(_, _) => ConsumeUnlost(cfg, w, id, now, s);
    case _ => QuietUnlost(cfg, w, call, id, now, s);
  }

  lemma StepUnlost(cfg: Limits, w: World, call: Call, now: int, s: string)
    requires Kept(cfg, w) && s in w.irq.sessions && w.irq.sessions[s].active.Some?
    ensures Unlost(w.book, NextBook(cfg, w, call, now), s)
  {
    if SessionOf(call).Some? {
      SessionUnlost(cfg, w, call, SessionOf(call).value, now, s);
    } else if call.DoExpire? {
      ExpireUnlost(cfg, w, now, s);
      ExpiryBook(cfg, w, now);
    } else {
      OtherBook(cfg, w, call, now);
    }
  }

  lemma ExpiryBook(cfg: Limits, w: World, now: int)
    requires Listed(w.irq)
    ensures NextBook(cfg, w, DoExpire, now) == DropBook(w.book, w.irq.sessions, ExpireSessions(cfg, w.irq, now).sessions.Keys)
  {
  }

  lemma OtherBook(cfg: Limits, w: World, call: Call, now: int)
    requires Listed(w.irq) && SessionOf(call).None? && !call.DoExpire?
    ensures NextBook(cfg, w, call, now) == w.book
  {
  }

  lemma ExpireUnlost(cfg: Limits, w: World, now: int, s: string)
    requires Inv(cfg, w.irq) && s in w.irq.sessions && w.irq.sessions[s].active.Some?
    ensures Unlost(w.book, DropBook(w.book, w.irq.sessions, ExpireSessions(cfg, w.irq, now).sessions.Keys), s)
  {
    ExpireFacts(cfg, w.irq, now);
    DropUnlost(w.book, w.irq.sessions, ExpireSessions(cfg, w.irq, now).sessions.Keys, s);
  }

  /** The session in whose queue an event was put. */
  function HomeOf(w: World, i: nat): string
    requires i < |w.book.log| && w.book.log[i].batch < |w.book.batches|
  {
    w.book.batches[w.book.log[i].batch].session
  }

  /** The session of a waiting event is there; if it is active, no call drops the event. */
  lemma OnlyIdleDrops(cfg: Limits, w: World, call: Call, now: int, i: nat)
    requires Kept(cfg, w) && Sensible(cfg) && i < |w.book.log| && FateOf(w, i) == Waiting
    ensures w.book.log[i].batch < |w.book.batches| && HomeOf(w, i) in w.irq.sessions
    ensures i < |Step(cfg, w, call, now).book.log|
    ensures FateOf(Step(cfg, w, call, now), i) == Dropped ==> w.irq.sessions[HomeOf(w, i)].active.None?
  {
    StepKeeps(cfg, w, call, now);
    StepIsFine(cfg, w, call, now);
    StepMoves(cfg, w, call, now);
    FateMoves(cfg, w, Step(cfg, w, call, now), DeliveredBy(cfg, w.irq, call, now), i);
    FateByBatch(cfg, w, i);
    FateByBatch(cfg, Step(cfg, w, call, now), i);
    assert w.book.open[HomeOf(w, i)] == w.book.log[i].batch;
    if w.irq.sessions[HomeOf(w, i)].active.Some? { StepUnlost(cfg, w, call, now, HomeOf(w, i)); }
  }

  // ---- one call -----------------------------------------------------------------------

  /** A fate other than waiting is final. An event turns from waiting to delivered in exactly the
      call that returns it, and it turns to dropped only while its session is idle. */
  lemma FatesAreFinal(cfg: Limits, w: World, call: Call, now: int, i: nat)
    requires Kept(cfg, w) && Sensible(cfg) && i < |w.book.log|
    ensures i < |Step(cfg, w, call, now).book.log| && Step(cfg, w, call, now).book.log[i] == w.book.log[i]
    ensures FateOf(w, i) != Waiting ==> FateOf(Step(cfg, w, call, now), i) == FateOf(w, i)
    ensures FateOf(w, i) == Waiting && FateOf(Step(cfg, w, call, now), i) == Delivered
            <==> w.book.log[i].event in DeliveredBy(cfg, w.irq, call, now)
    ensures FateOf(w, i) == Waiting && FateOf(Step(cfg, w, call, now), i) == Dropped ==>
              && w.book.log[i].batch < |w.book.batches| && HomeOf(w, i) in w.irq.sessions
              && w.irq.sessions[HomeOf(w, i)].active.None?
  {
    var next := Step(cfg, w, call, now);
    StepKeeps(cfg, w, call, now);
    StepIsFine(cfg, w, call, now);
    StepMoves(cfg, w, call, now);
    FateMoves(cfg, w, next, DeliveredBy(cfg, w.irq, call, now), i);
    if w.book.log[i].event in DeliveredBy(cfg, w.irq, call, now) { ReturnedWasWaiting(cfg, w, next, SessionOf(call).value, now, i); }
    if FateOf(w, i) == Waiting { OnlyIdleDrops(cfg, w, call, now, i); }
  }

  /** Whatever a call returns is in the log: it was accepted before. */
  lemma ReturnedWasLogged(cfg: Limits, w: World, call: Call, now: int, event: Event)
    requires Kept(cfg, w) && event in DeliveredBy(cfg, w.irq, call, now)
    ensures exists i :: 0 <= i < |w.book.log| && w.book.log[i].event == event
  {
    var id := SessionOf(call).value;
    ConsumeUnfolds(cfg, w.irq, id, now);
    HandedOutIsQueue(cfg, w, id, now);
    RetainedIsLogged(cfg, w.book.log, w.book.open[id], event);
  }

  lemma RetainedIsLogged(cfg: Limits, log: seq<Record>, batch: nat, event: Event)
    requires event in Retained(cfg, Offered(log, batch))
    ensures exists i :: 0 <= i < |log| && log[i].event == event
  {
    RetainedMembers(cfg, Offered(log, batch));
    OfferedMembers(log, batch);
    var i :| 0 <= i < |log| && log[i] == Record(event, batch);
  }

  lemma FateMoves(cfg: Limits, w: World, next: World, delivered: seq<Event>, i: nat)
    requires Kept(cfg, w) && Kept(cfg, next) && i < |w.book.log|
    requires LogGrows(w.book.log, w.irq.sequence, next.book.log, next.irq.sequence)
    requires BatchesMove(w.book, next.book, delivered)
    ensures i < |next.book.log| && next.book.log[i] == w.book.log[i]
    ensures FateOf(w, i) != Waiting ==> FateOf(next, i) == FateOf(w, i)
    ensures FateOf(w, i) == Waiting && FateOf(next, i) == Delivered ==> w.book.log[i].event in delivered
  {
    assert next.book.log[i] == w.book.log[i] by {
      if next.book.log != w.book.log { assert next.book.log[..|w.book.log|][i] == w.book.log[i]; }
    }
    FateByBatch(cfg, w, i);
    FateByBatch(cfg, next, i);
    assert BatchMoves(w.book.batches[w.book.log[i].batch], next.book.batches[w.book.log[i].batch], delivered);
    if AtHead(cfg, next.book.log, i) { HeadShrinks(cfg, w, next, i); }
  }

  /** What is not waiting at some moment has the same fate ever after. */
  lemma {:induction false} FatesAreFinalInRuns(cfg: Limits, w: World, moments: seq<Moment>, i: nat)
    requires Kept(cfg, w) && Sensible(cfg) && i < |w.book.log|
    ensures i < |Run(cfg, w, moments).book.log|
    ensures FateOf(w, i) != Waiting ==> FateOf(Run(cfg, w, moments), i) == FateOf(w, i)
  {
    if moments != [] {
      var front, last := moments[..|moments| - 1], moments[|moments| - 1];
      FatesAreFinalInRuns(cfg, w, front, i);
      FatesAreFinal(cfg, Run(cfg, w, front), last.call, last.now, i);
    }
  }

  /** `accepted` says whether the new event waits in its queue. */
  lemma AcceptedIsWaiting(cfg: Limits, w: World, id: string, notice: Notice, now: int)
    requires Kept(cfg, w) && Sensible(cfg)
    ensures var r := Inject(cfg, w.irq, Some(id), notice, now).1;
            r.Ok? ==>
              var next := Step(cfg, w, DoInject(Some(id), notice), now);
              && |next.book.log| == |w.book.log| + 1 && next.book.log[|w.book.log|].event == r.value.event
              && (r.value.accepted <==> FateOf(next, |w.book.log|) == Waiting)
              && (!r.value.accepted <==> FateOf(next, |w.book.log|) == Displaced)
  {
    var r := Inject(cfg, w.irq, Some(id), notice, now).1;
    if r.Ok? {
      ReachFine(cfg, w, id, true, now);
      InjectBookUnfolds(cfg, w, id, notice, now);
      InjectUnfolds(cfg, w.irq, id, notice, now);
      AcceptedIsRetained(cfg, w.irq, id, notice, now);
      LastFate(ReachBook(cfg, w, id, true, now), Reach(cfg, w.irq, id, true, now).0.sessions, Step(cfg, w, DoInject(Some(id), notice), now), id, r.value);
    }
  }

  lemma LastFate(book: Book, sessions: map<string, Session>, next: World, id: string, queued: Queued)
    requires Opened(sessions.Keys, book) && id in sessions && next.book == Offer(book, id, queued.event)
    requires id in next.irq.sessions && (queued.accepted <==> queued.event in next.irq.sessions[id].pending)
    ensures |next.book.log| == |book.log| + 1 && next.book.log[|book.log|].event == queued.event
    ensures FateOf(next, |book.log|) == if queued.accepted then Waiting else Displaced
  {
  }

  lemma AcceptedIsRetained(cfg: Limits, irq: Irq, id: string, notice: Notice, now: int)
    requires Listed(irq) && Inject(cfg, irq, Some(id), notice, now).1.Ok?
    ensures var (next, r) := Inject(cfg, irq, Some(id), notice, now);
            id in next.sessions && (r.value.accepted <==> r.value.event in next.sessions[id].pending)
  {
  }

  /** What is displaced lost to `maxPending` events that come before it. */
  lemma DisplacedByBetter(cfg: Limits, w: World, i: nat)
    requires Kept(cfg, w) && i < |w.book.log| && FateOf(w, i) == Displaced
    ensures var kept := Retained(cfg, Offered(w.book.log, w.book.log[i].batch));
            |kept| == cfg.maxPending && forall event :: event in kept ==>
              || event.priority > w.book.log[i].event.priority
              || (event.priority == w.book.log[i].event.priority && event.sequence < w.book.log[i].event.sequence)
  {
    var log, r := w.book.log, w.book.log[i];
    FateByBatch(cfg, w, i);
    OfferedMembers(log, r.batch);
    assert r == Record(r.event, r.batch);
    CutByBetter(cfg, Offered(log, r.batch), r.event);
    var kept := Retained(cfg, Offered(log, r.batch));
    forall event | event in kept ensures Comes(event, r.event) {
      RetainedMembers(cfg, Offered(log, r.batch));
      var j :| 0 <= j < |log| && log[j] == Record(event, r.batch);
      assert !Comes(r.event, event);
      assert j != i;
      assert log[j].event.sequence != log[i].event.sequence;
    }
  }

  lemma CutByBetter(cfg: Limits, offered: seq<Event>, event: Event)
    requires event in offered && event !in Retained(cfg, offered)
    ensures |Retained(cfg, offered)| == cfg.maxPending
    ensures forall x :: x in Retained(cfg, offered) ==> !Comes(event, x)
  {
    var sorted := Sort(EventOrder(), offered);
    SortMembers(EventOrder(), offered);
    MembersAgree(sorted, offered);
    EventsAreOrdered();
    SortSorted(EventOrder(), offered);
    var j :| 0 <= j < |sorted| && sorted[j] == event;
    if j < cfg.maxPending { TakeMember(cfg.maxPending, sorted, j); }
    forall x | x in Retained(cfg, offered) ensures !Comes(event, x) {
      var k :| 0 <= k < cfg.maxPending && sorted[k] == x;
      assert !EventOrder()(sorted[j], sorted[k]);
    }
  }

  lemma TakeMember<T>(k: nat, s: seq<T>, j: nat)
    requires j < k && j < |s|
    ensures s[j] in Take(k, s)
  {
    assert Take(k, s)[j] == s[j];
  }

  /** The notice put in front of a body holds every delivered event, in queue order. A body that
      is not an object is refused after the events have left the queue. */
  lemma NoticeHoldsAll(cfg: Limits, w: World, id: string, body: Option<seq<Message>>, now: int)
    requires Kept(cfg, w) && Sensible(cfg)
    ensures var (next, r) := ApplyPending(cfg, w.irq, Some(id), body, now);
            var events := Consume(cfg, w.irq, Some(id), now).1.value;
            && next == Consume(cfg, w.irq, Some(id), now).0
            && r == (if body.None? then Err(BadBody)
                     else Ok((if events == [] then body.value else [Kernel(events)] + body.value, events)))
  {
    ConsumeUnfolds(cfg, w.irq, id, now);
    if HasPending(Reach(cfg, w.irq, id, false, now).0, id) { PendingSorts(cfg, w, id, now); }
  }

  lemma PendingSorts(cfg: Limits, w: World, id: string, now: int)
    requires Kept(cfg, w) && HasPending(Reach(cfg, w.irq, id, false, now).0, id)
    ensures var events := Reach(cfg, w.irq, id, false, now).0.sessions[id].pending;
            Take(cfg.maxPending, Sort(EventOrder(), events)) == events
  {
    var book := ReachBook(cfg, w, id, false, now);
    ReachFine(cfg, w, id, false, now);
    HeadSorts(cfg, Offered(book.log, book.open[id]));
  }

  lemma HeadSorts(cfg: Limits, offered: seq<Event>)
    ensures var events := Retained(cfg, offered); Take(cfg.maxPending, Sort(EventOrder(), events)) == events
  {
    EventsAreOrdered();
    SortSorted(EventOrder(), offered);
    SortOfSorted(EventOrder(), Retained(cfg, offered));
  }
}
