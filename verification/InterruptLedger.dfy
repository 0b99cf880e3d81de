/** Every event the interrupt controller ever numbered, and where it is now. Events are offered
    in batches: a batch opens with a session or with a delivery, and closes when the session's
    queue is delivered or when the idle session is dropped. */
module InterruptLedger {
  import opened Common
  import opened Sorting
  import opened Interrupts
  import opened InterruptSafety

  datatype BatchState = Open | Taken(events: seq<Event>) | Lost(events: seq<Event>)

  datatype Batch = Batch(session: string, state: BatchState)

  datatype Record = Record(event: Event, batch: nat)

  /** The events in the order of their numbers, and the open batch of every session. */
  datatype Book = Book(log: seq<Record>, open: map<string, nat>, batches: seq<Batch>)

  function Offered(log: seq<Record>, b: nat): seq<Event> {
    if log == [] then []
    else
      var last := log[|log| - 1];
      Offered(log[..|log| - 1], b) + if last.batch == b then [last.event] else []
  }

  lemma OfferedMore(log: seq<Record>, r: Record, b: nat)
    ensures Offered(log + [r], b) == if r.batch == b then Offered(log, b) + [r.event] else Offered(log, b)
  {
    assert (log + [r])[..|log|] == log;
  }

  lemma {:induction false} NothingOffered(log: seq<Record>, b: nat)
    requires forall i :: 0 <= i < |log| ==> log[i].batch < b
    ensures Offered(log, b) == []
  {
    if log != [] { NothingOffered(log[..|log| - 1], b); }
  }

  /** Every session has its one open batch, and records point to batches. */
  ghost predicate Opened(keys: set<string>, book: Book) {
    && book.open.Keys == keys
    && (forall s :: s in book.open ==> book.open[s] < |book.batches| && book.batches[book.open[s]] == Batch(s, Open))
    && (forall i :: 0 <= i < |book.batches| && book.batches[i].state.Open? ==>
          book.batches[i].session in book.open && book.open[book.batches[i].session] == i)
    && (forall i :: 0 <= i < |book.log| ==> book.log[i].batch < |book.batches|)
  }

  /** Queues hold the first `maxPending` of what was offered to them, in order. */
  ghost predicate QueuesRight(cfg: Limits, sessions: map<string, Session>, book: Book) {
    forall s :: s in book.open && s in sessions ==> sessions[s].pending == Retained(cfg, Offered(book.log, book.open[s]))
  }

  /** So did the queues that closed batches ended with. */
  ghost predicate ClosedRight(cfg: Limits, book: Book) {
    forall i :: 0 <= i < |book.batches| && !book.batches[i].state.Open? ==>
      book.batches[i].state.events == Retained(cfg, Offered(book.log, i))
  }

  ghost predicate Booked(cfg: Limits, sessions: map<string, Session>, book: Book) {
    Opened(sessions.Keys, book) && QueuesRight(cfg, sessions, book) && ClosedRight(cfg, book)
  }

  // ---- bookkeeping --------------------------------------------------------------------

  function LoseBatch(b: Batch, before: map<string, Session>, kept: set<string>): Batch {
    if b.state.Open? && b.session in before && b.session !in kept then b.(state := Lost(before[b.session].pending)) else b
  }

  /** Closes the batches of the sessions that were dropped. */
  function DropBook(book: Book, before: map<string, Session>, kept: set<string>): Book {
    book.(batches := seq(|book.batches|, i requires 0 <= i < |book.batches| => LoseBatch(book.batches[i], before, kept)),
          open := map s | s in book.open && s in kept :: book.open[s])
  }

  function NewBatch(book: Book, id: string): Book {
    book.(open := book.open[id := |book.batches|], batches := book.batches + [Batch(id, Open)])
  }

  /** The book in which the open batch of a session has been closed by a delivery. */
  function CloseBatch(book: Book, id: string, events: seq<Event>): Book
    requires id in book.open && book.open[id] < |book.batches|
  {
    book.(batches := book.batches[book.open[id] := Batch(id, Taken(events))], open := book.open - {id})
  }

  function Deliver(book: Book, id: string, events: seq<Event>): Book
    requires id in book.open && book.open[id] < |book.batches|
  {
    NewBatch(CloseBatch(book, id, events), id)
  }

  function Offer(book: Book, id: string, event: Event): Book
    requires id in book.open
  {
    book.(log := book.log + [Record(event, book.open[id])])
  }

  lemma DropKeeps(cfg: Limits, a: map<string, Session>, b: map<string, Session>, book: Book)
    requires Booked(cfg, a, book)
    requires forall x :: x in b ==> x in a && b[x].pending == a[x].pending
    ensures Booked(cfg, b, DropBook(book, a, b.Keys))
  {
    var next := DropBook(book, a, b.Keys);
    forall i | 0 <= i < |next.batches| && !next.batches[i].state.Open?
      ensures next.batches[i].state.events == Retained(cfg, Offered(next.log, i))
    {
      assert next.batches[i] == LoseBatch(book.batches[i], a, b.Keys);
    }
  }

  lemma NewOpened(keys: set<string>, book: Book, id: string)
    requires Opened(keys - {id}, book)
    ensures Opened(keys + {id}, NewBatch(book, id))
  {
    var next := NewBatch(book, id);
    forall i | 0 <= i < |next.batches| && next.batches[i].state.Open?
      ensures next.batches[i].session in next.open && next.open[next.batches[i].session] == i
    {
      if i < |book.batches| { assert next.batches[i] == book.batches[i]; }
    }
  }

  lemma NewClosed(cfg: Limits, book: Book, id: string)
    requires ClosedRight(cfg, book)
    ensures ClosedRight(cfg, NewBatch(book, id))
  {
    var next := NewBatch(book, id);
    forall i | 0 <= i < |next.batches| && !next.batches[i].state.Open?
      ensures next.batches[i].state.events == Retained(cfg, Offered(next.log, i))
    {
      assert next.batches[i] == book.batches[i];
    }
  }

  lemma NewKeeps(cfg: Limits, a: map<string, Session>, b: map<string, Session>, book: Book, id: string)
    requires Opened(a.Keys - {id}, book) && QueuesRight(cfg, a, book) && ClosedRight(cfg, book)
    requires id in b && b[id].pending == []
    requires b.Keys == a.Keys + {id} && forall x :: x in a && x != id ==> b[x].pending == a[x].pending
    ensures Booked(cfg, b, NewBatch(book, id))
  {
    NothingOffered(book.log, |book.batches|);
    NewOpened(a.Keys, book, id);
    NewClosed(cfg, book, id);
  }

  lemma SameKeeps(cfg: Limits, a: map<string, Session>, b: map<string, Session>, book: Book)
    requires Booked(cfg, a, book) && b.Keys == a.Keys && forall x :: x in a ==> b[x].pending == a[x].pending
    ensures Booked(cfg, b, book)
  {
  }

  lemma CloseKeeps(cfg: Limits, a: map<string, Session>, book: Book, id: string)
    requires Booked(cfg, a, book) && id in a
    ensures var next := CloseBatch(book, id, a[id].pending);
            Opened(a.Keys - {id}, next) && QueuesRight(cfg, a, next) && ClosedRight(cfg, next)
  {
    var next, b := CloseBatch(book, id, a[id].pending), book.open[id];
    forall i | 0 <= i < |next.batches| && !next.batches[i].state.Open?
      ensures next.batches[i].state.events == Retained(cfg, Offered(next.log, i))
    {
      if i != b { assert next.batches[i] == book.batches[i]; }
    }
    assert Opened(a.Keys - {id}, next) by { CloseOpened(a.Keys, book, id, a[id].pending); }
  }

  lemma CloseOpened(keys: set<string>, book: Book, id: string, events: seq<Event>)
    requires Opened(keys, book) && id in keys
    ensures Opened(keys - {id}, CloseBatch(book, id, events))
  {
    var next := CloseBatch(book, id, events);
    forall s | s in next.open ensures next.open[s] < |next.batches| && next.batches[next.open[s]] == Batch(s, Open) {
      assert book.batches[book.open[s]].session == s;
    }
    forall i | 0 <= i < |next.batches| && next.batches[i].state.Open?
      ensures next.batches[i].session in next.open && next.open[next.batches[i].session] == i
    {
      assert next.batches[i] == book.batches[i];
    }
  }

  lemma DeliverKeeps(cfg: Limits, a: map<string, Session>, b: map<string, Session>, book: Book, id: string)
    requires Booked(cfg, a, book) && id in a && b.Keys == a.Keys && b[id].pending == []
    requires forall x :: x in a && x != id ==> b[x].pending == a[x].pending
    ensures Booked(cfg, b, Deliver(book, id, a[id].pending))
  {
    var closed := CloseBatch(book, id, a[id].pending);
    CloseKeeps(cfg, a, book, id);
    assert b.Keys == a.Keys + {id};
    NewKeeps(cfg, a, b, closed, id);
  }

  lemma OfferQueues(cfg: Limits, a: map<string, Session>, b: map<string, Session>, book: Book, id: string, event: Event)
    requires Opened(a.Keys, book) && QueuesRight(cfg, a, book) && id in a && b.Keys == a.Keys
    requires b[id].pending == Retained(cfg, a[id].pending + [event])
    requires forall x :: x in a && x != id ==> b[x].pending == a[x].pending
    ensures QueuesRight(cfg, b, Offer(book, id, event))
  {
    var next, r := Offer(book, id, event), Record(event, book.open[id]);
    forall s | s in next.open && s in b ensures b[s].pending == Retained(cfg, Offered(next.log, next.open[s])) {
      OfferedMore(book.log, r, book.open[s]);
      if s == id {
        EventsAreOrdered();
        TruncatedSortRefines(EventOrder(), cfg.maxPending, Offered(book.log, book.open[id]), event);
      } else {
        assert book.batches[book.open[s]].session == s;
        assert book.batches[book.open[id]].session == id;
      }
    }
  }

  lemma OfferClosed(cfg: Limits, book: Book, id: string, event: Event)
    requires ClosedRight(cfg, book) && id in book.open && book.open[id] < |book.batches| && book.batches[book.open[id]].state.Open?
    ensures ClosedRight(cfg, Offer(book, id, event))
  {
    var next, r := Offer(book, id, event), Record(event, book.open[id]);
    forall i | 0 <= i < |next.batches| && !next.batches[i].state.Open?
      ensures next.batches[i].state.events == Retained(cfg, Offered(next.log, i))
    {
      OfferedMore(book.log, r, i);
    }
  }

  lemma OfferOpened(keys: set<string>, book: Book, id: string, event: Event)
    requires Opened(keys, book) && id in keys
    ensures Opened(keys, Offer(book, id, event))
  {
  }

  lemma OfferKeeps(cfg: Limits, a: map<string, Session>, b: map<string, Session>, book: Book, id: string, event: Event)
    requires Booked(cfg, a, book) && id in a && b.Keys == a.Keys
    requires b[id].pending == Retained(cfg, a[id].pending + [event])
    requires forall x :: x in a && x != id ==> b[x].pending == a[x].pending
    ensures Booked(cfg, b, Offer(book, id, event))
  {
    OfferQueues(cfg, a, b, book, id, event);
    OfferClosed(cfg, book, id, event);
    OfferOpened(b.Keys, book, id, event);
  }

  // ---- the world ----------------------------------------------------------------------

  datatype World = World(irq: Irq, book: Book)

  function ReachBook(cfg: Limits, w: World, id: string, create: bool, now: int): Book
    requires Listed(w.irq)
  {
    var c, t := Clear(cfg, w.irq, id, create, now), Reach(cfg, w.irq, id, create, now).0;
    var book := DropBook(w.book, w.irq.sessions, c.sessions.Keys);
    if id in t.sessions && id !in c.sessions then NewBatch(book, id) else book
  }

  lemma ReachSessions(cfg: Limits, irq: Irq, id: string, create: bool, now: int)
    requires Listed(irq)
    ensures Reaches(Clear(cfg, irq, id, create, now).sessions, Reach(cfg, irq, id, create, now).0.sessions, id)
  {
  }

  /** At most the queue of `id` is new, and then it is empty. */
  ghost predicate Reaches(c: map<string, Session>, t: map<string, Session>, id: string) {
    && c.Keys <= t.Keys <= c.Keys + {id}
    && (forall x :: x in c ==> t[x].pending == c[x].pending)
    && (id in t && id !in c ==> t[id].pending == [])
  }

  lemma ReachedKeeps(cfg: Limits, c: map<string, Session>, t: map<string, Session>, book: Book, id: string)
    requires Booked(cfg, c, book) && Reaches(c, t, id)
    ensures Booked(cfg, t, if id in t && id !in c then NewBatch(book, id) else book)
  {
    if id in t && id !in c {
      assert c.Keys - {id} == c.Keys;
      NewKeeps(cfg, c, t, book, id);
    } else {
      assert t.Keys == c.Keys;
      SameKeeps(cfg, c, t, book);
    }
  }

  lemma ReachKeeps(cfg: Limits, w: World, id: string, create: bool, now: int)
    requires Inv(cfg, w.irq) && Booked(cfg, w.irq.sessions, w.book)
    ensures Booked(cfg, Reach(cfg, w.irq, id, create, now).0.sessions, ReachBook(cfg, w, id, create, now))
  {
    ClearFacts(cfg, w.irq, id, create, now);
    var c, t := Clear(cfg, w.irq, id, create, now), Reach(cfg, w.irq, id, create, now).0;
    DropKeeps(cfg, w.irq.sessions, c.sessions, w.book);
    ReachSessions(cfg, w.irq, id, create, now);
    ReachedKeeps(cfg, c.sessions, t.sessions, DropBook(w.book, w.irq.sessions, c.sessions.Keys), id);
  }

  function InjectBook(cfg: Limits, w: World, session: Option<string>, notice: Notice, now: int): Book
    requires Listed(w.irq)
  {
    if session.None? then w.book
    else
      var book, r := ReachBook(cfg, w, session.value, true, now), Inject(cfg, w.irq, session, notice, now).1;
      if r.Ok? && session.value in book.open then Offer(book, session.value, r.value.event) else book
  }

  function ConsumeBook(cfg: Limits, w: World, session: Option<string>, now: int): Book
    requires Listed(w.irq)
  {
    if session.None? then w.book
    else
      var id := session.value;
      var book, t := ReachBook(cfg, w, id, false, now), Reach(cfg, w.irq, id, false, now).0;
      if id in t.sessions && t.sessions[id].pending != [] && id in book.open && book.open[id] < |book.batches|
      then Deliver(book, id, t.sessions[id].pending) else book
  }

  function TouchBook(cfg: Limits, w: World, session: Option<string>, create: bool, now: int): Book
    requires Listed(w.irq)
  {
    if session.None? then w.book else ReachBook(cfg, w, session.value, create, now)
  }

  function NextBook(cfg: Limits, w: World, call: Call, now: int): Book
    requires Listed(w.irq)
  {
    match call
    case DoBegin(session, _, _, _) => TouchBook(cfg, w, session, true, now)
    case DoEnd(_) => w.book
    case DoInject(session, notice) => InjectBook(cfg, w, session, notice, now)
    case DoPreempt(session, notice) => InjectBook(cfg, w, session, notice, now)
    case DoCancel(session, _) => TouchBook(cfg, w, session, false, now)
    case DoConsume(session) => ConsumeBook(cfg, w, session, now)
    case DoApply(session, _) => ConsumeBook(cfg, w, session, now)
    case DoLook(session) => TouchBook(cfg, w, session, false, now)
    case DoExpire => DropBook(w.book, w.irq.sessions, ExpireSessions(cfg, w.irq, now).sessions.Keys)
    case ClientSignals(_) => w.book
  }

  function Step(cfg: Limits, w: World, call: Call, now: int): (r: World)
    requires Listed(w.irq)
    ensures Listed(r.irq)
  {
    World(Do(cfg, w.irq, call, now), NextBook(cfg, w, call, now))
  }

  /** Event numbers grow, and none is used twice. */
  ghost predicate Numbered(w: World) {
    && (forall i, j :: 0 <= i < j < |w.book.log| ==> w.book.log[i].event.sequence < w.book.log[j].event.sequence)
    && (forall i :: 0 <= i < |w.book.log| ==> w.book.log[i].event.sequence < w.irq.sequence)
  }

  ghost predicate Kept(cfg: Limits, w: World) {
    Inv(cfg, w.irq) && Booked(cfg, w.irq.sessions, w.book) && Numbered(w)
  }

  // ---- every call keeps the book ------------------------------------------------------

  /** What the log may gain in one call: nothing, or the next numbered event. */
  ghost predicate LogGrows(log: seq<Record>, sequence: nat, next: seq<Record>, after: nat) {
    && sequence <= after
    && (next == log
        || (|next| == |log| + 1 && next[..|log|] == log && next[|log|].event.sequence == sequence < after))
  }

  ghost predicate StepFine(cfg: Limits, w: World, irq: Irq, book: Book) {
    && Booked(cfg, irq.sessions, book)
    && LogGrows(w.book.log, w.irq.sequence, book.log, irq.sequence)
  }

  lemma ReachFine(cfg: Limits, w: World, id: string, create: bool, now: int)
    requires Inv(cfg, w.irq) && Booked(cfg, w.irq.sessions, w.book)
    ensures StepFine(cfg, w, Reach(cfg, w.irq, id, create, now).0, ReachBook(cfg, w, id, create, now))
    ensures Reach(cfg, w.irq, id, create, now).0.sequence == w.irq.sequence
    ensures ReachBook(cfg, w, id, create, now).log == w.book.log
  {
    ReachKeeps(cfg, w, id, create, now);
    ReachFacts(cfg, w.irq, id, create, now);
  }

  /** A call that after reaching its session leaves every queue as it is. */
  ghost predicate Quiet(t: Irq, next: Irq) {
    && next.sessions.Keys == t.sessions.Keys && next.sequence == t.sequence
    && forall x :: x in t.sessions ==> next.sessions[x].pending == t.sessions[x].pending
  }

  lemma QuietFine(cfg: Limits, w: World, t: Irq, next: Irq, book: Book)
    requires StepFine(cfg, w, t, book) && Quiet(t, next)
    ensures StepFine(cfg, w, next, book)
  {
    SameKeeps(cfg, t.sessions, next.sessions, book);
  }

  lemma StartQuiet(t: Irq, id: string, client: Client, requestId: Option<string>, priority: int, now: int)
    requires Listed(t) && id in t.sessions
    ensures Quiet(t, Start(t, id, client, requestId, priority, now).0)
  {
  }

  lemma BeginQuiet(cfg: Limits, irq: Irq, id: string, client: Client, requestId: Option<string>, priority: int, now: int)
    requires Listed(irq)
    ensures Quiet(Reach(cfg, irq, id, true, now).0, Begin(cfg, irq, Some(id), client, requestId, priority, now).0)
  {
    var (t, ok) := Reach(cfg, irq, id, true, now);
    if ok { StartQuiet(t, id, client, requestId, priority, now); }
  }

  lemma CancelQuiet(cfg: Limits, irq: Irq, id: string, reason: Option<string>, now: int)
    requires Listed(irq)
    ensures Quiet(Reach(cfg, irq, id, false, now).0, Cancel(cfg, irq, Some(id), reason, now).0)
  {
  }

  lemma LookQuiet(cfg: Limits, irq: Irq, id: string, now: int)
    requires Listed(irq)
    ensures Quiet(Reach(cfg, irq, id, false, now).0, Look(cfg, irq, Some(id), now).0)
  {
  }

  lemma EndQuiet(irq: Irq, lease: nat, now: int)
    requires Listed(irq)
    ensures Quiet(irq, End(irq, lease, now).0)
  {
  }

  /** What queueing does to the sessions. */
  ghost predicate Enqueued(cfg: Limits, t: Irq, next: Irq, id: string, r: Result<Queued, Fault>) {
    && t.sequence <= next.sequence
    && (if r.Err? then next.sessions == t.sessions
        else && id in t.sessions && r.value.event.sequence == t.sequence < next.sequence
             && next.sessions == t.sessions[id := t.sessions[id].(pending := Retained(cfg, t.sessions[id].pending + [r.value.event]))])
  }

  lemma EnqueueUnfolds(cfg: Limits, t: Irq, id: string, notice: Notice, now: int)
    requires Listed(t) && id in t.sessions
    ensures var (next, r) := Enqueue(cfg, t, id, notice, now); Enqueued(cfg, t, next, id, r)
  {
  }

  lemma InjectUnfolds(cfg: Limits, irq: Irq, id: string, notice: Notice, now: int)
    requires Listed(irq)
    ensures var (next, r) := Inject(cfg, irq, Some(id), notice, now); Enqueued(cfg, Reach(cfg, irq, id, true, now).0, next, id, r)
  {
    var (t, ok) := Reach(cfg, irq, id, true, now);
    if ok { EnqueueUnfolds(cfg, t, id, notice, now); }
  }

  lemma InjectBookUnfolds(cfg: Limits, w: World, id: string, notice: Notice, now: int)
    requires Listed(w.irq)
    ensures var book, r := ReachBook(cfg, w, id, true, now), Inject(cfg, w.irq, Some(id), notice, now).1;
            InjectBook(cfg, w, Some(id), notice, now) == if r.Ok? && id in book.open then Offer(book, id, r.value.event) else book
  {
  }

  lemma EnqueueFine(cfg: Limits, w: World, t: Irq, next: Irq, id: string, r: Result<Queued, Fault>, book: Book)
    requires Booked(cfg, t.sessions, book) && t.sequence == w.irq.sequence && book.log == w.book.log
    requires Enqueued(cfg, t, next, id, r)
    ensures StepFine(cfg, w, next, if r.Ok? && id in book.open then Offer(book, id, r.value.event) else book)
  {
    if r.Ok? { OfferKeeps(cfg, t.sessions, next.sessions, book, id, r.value.event); }
  }

  lemma InjectFine(cfg: Limits, w: World, id: string, notice: Notice, now: int)
    requires Inv(cfg, w.irq) && Booked(cfg, w.irq.sessions, w.book)
    ensures StepFine(cfg, w, Inject(cfg, w.irq, Some(id), notice, now).0, InjectBook(cfg, w, Some(id), notice, now))
  {
    ReachFine(cfg, w, id, true, now);
    InjectUnfolds(cfg, w.irq, id, notice, now);
    InjectBookUnfolds(cfg, w, id, notice, now);
    var (next, r) := Inject(cfg, w.irq, Some(id), notice, now);
    EnqueueFine(cfg, w, Reach(cfg, w.irq, id, true, now).0, next, id, r, ReachBook(cfg, w, id, true, now));
  }

  predicate HasPending(t: Irq, id: string) { id in t.sessions && t.sessions[id].pending != [] }

  lemma ConsumeUnfolds(cfg: Limits, irq: Irq, id: string, now: int)
    requires Listed(irq)
    ensures var t, (next, r) := Reach(cfg, irq, id, false, now).0, Consume(cfg, irq, Some(id), now);
            if HasPending(t, id)
            then next.sessions == t.sessions[id := t.sessions[id].(pending := [])] && r == Ok(t.sessions[id].pending) && next.sequence == t.sequence
            else next == t && r == Ok([])
  {
  }

  lemma ConsumeBookUnfolds(cfg: Limits, w: World, id: string, now: int)
    requires Listed(w.irq)
    ensures var t, book := Reach(cfg, w.irq, id, false, now).0, ReachBook(cfg, w, id, false, now);
            id in book.open && book.open[id] < |book.batches| ==>
              ConsumeBook(cfg, w, Some(id), now) == if HasPending(t, id) then Deliver(book, id, t.sessions[id].pending) else book
  {
  }

  lemma DeliveryFine(cfg: Limits, w: World, t: Irq, next: Irq, id: string, book: Book)
    requires Booked(cfg, t.sessions, book) && book.log == w.book.log && next.sequence == w.irq.sequence
    requires HasPending(t, id) && next.sessions == t.sessions[id := t.sessions[id].(pending := [])]
    ensures StepFine(cfg, w, next, Deliver(book, id, t.sessions[id].pending))
  {
    DeliverKeeps(cfg, t.sessions, next.sessions, book, id);
  }

  lemma ConsumeFine(cfg: Limits, w: World, id: string, now: int)
    requires Inv(cfg, w.irq) && Booked(cfg, w.irq.sessions, w.book)
    ensures StepFine(cfg, w, Consume(cfg, w.irq, Some(id), now).0, ConsumeBook(cfg, w, Some(id), now))
  {
    ReachFine(cfg, w, id, false, now);
    ConsumeUnfolds(cfg, w.irq, id, now);
    ConsumeBookUnfolds(cfg, w, id, now);
    var t, book := Reach(cfg, w.irq, id, false, now).0, ReachBook(cfg, w, id, false, now);
    if HasPending(t, id) {
      DeliveryFine(cfg, w, t, Consume(cfg, w.irq, Some(id), now).0, id, book);
    }
  }

  // ---- preemption and injection -------------------------------------------------------

  lemma {:induction false} NothingStale(order: seq<string>, sessions: map<string, Session>, threshold: int)
    requires forall id :: id in order ==> id in sessions && !Stale(sessions[id], threshold)
    ensures FreshOrder(order, sessions, threshold) == order
  {
    if order != [] {
      NothingStale(order[..|order| - 1], sessions, threshold);
      assert order == order[..|order| - 1] + [order[|order| - 1]];
    }
  }

  lemma ReachedIsFresh(cfg: Limits, irq: Irq, id: string, now: int)
    requires Inv(cfg, irq) && Sensible(cfg) && Reach(cfg, irq, id, true, now).1
    ensures var t := Reach(cfg, irq, id, true, now).0;
            t.sessions[id].lastTouched == now && forall x :: x in t.sessions ==> !Stale(t.sessions[x], now - cfg.ttl)
  {
    ClearFacts(cfg, irq, id, true, now);
  }

  lemma AllFresh(sessions: map<string, Session>, threshold: int)
    requires forall x :: x in sessions ==> !Stale(sessions[x], threshold)
    ensures FreshSessions(sessions, threshold) == sessions
  {
  }

  lemma ExpireFresh(cfg: Limits, t: Irq, now: int)
    requires Listed(t)
    requires forall x :: x in t.sessions ==> !Stale(t.sessions[x], now - cfg.ttl)
    ensures ExpireSessions(cfg, t, now) == t
  {
    assert forall x :: x in t.order ==> x in t.sessions;
    NothingStale(t.order, t.sessions, now - cfg.ttl);
    AllFresh(t.sessions, now - cfg.ttl);
    ExpiryUnfolds(cfg, t, now);
  }

  lemma ExpiryUnfolds(cfg: Limits, t: Irq, now: int)
    requires Listed(t)
    ensures forall id :: id in t.order ==> id in t.sessions
    ensures ExpireSessions(cfg, t, now)
            == t.(order := FreshOrder(t.order, t.sessions, now - cfg.ttl), sessions := FreshSessions(t.sessions, now - cfg.ttl))
  {
  }

  lemma ClearFresh(cfg: Limits, t: Irq, id: string, now: int)
    requires Listed(t) && id in t.sessions
    requires forall x :: x in t.sessions ==> !Stale(t.sessions[x], now - cfg.ttl)
    ensures Clear(cfg, t, id, true, now) == t
  {
    ExpireFresh(cfg, t, now);
  }

  lemma ReachFresh(cfg: Limits, t: Irq, id: string, now: int)
    requires Listed(t) && id in t.sessions && t.sessions[id].lastTouched == now
    requires Clear(cfg, t, id, true, now) == t
    ensures Reach(cfg, t, id, true, now) == (t, true)
  {
    assert t.sessions[id := t.sessions[id].(lastTouched := now)] == t.sessions;
  }

  /** A preemption queues its event as an injection does. */
  lemma PreemptQueues(cfg: Limits, irq: Irq, id: string, notice: Notice, now: int)
    requires Inv(cfg, irq) && Sensible(cfg)
    ensures SameQueueing(Preempt(cfg, irq, Some(id), notice, now), Inject(cfg, irq, Some(id), notice, now))
  {
    var (t, ok) := Reach(cfg, irq, id, true, now);
    if ok {
      ReachedIsFresh(cfg, irq, id, now);
      ClearFresh(cfg, t, id, now);
      ReachFresh(cfg, t, id, now);
      InjectAgain(cfg, irq, Some(id), notice, now);
      PreemptOverInject(cfg, irq, id, notice, now, Inject(cfg, irq, Some(id), notice, now));
    }
  }

  ghost predicate SameQueueing(p: (Irq, Result<Preempted, Fault>), q: (Irq, Result<Queued, Fault>)) {
    && p.0 == q.0.(leases := p.0.leases)
    && (p.1.Ok? <==> q.1.Ok?) && (p.1.Ok? ==> p.1.value.queued == q.1.value)
  }

  lemma PreemptOverInject(cfg: Limits, irq: Irq, id: string, notice: Notice, now: int, q: (Irq, Result<Queued, Fault>))
    requires Listed(irq) && Reach(cfg, irq, id, true, now).1
    requires Inject(cfg, Reach(cfg, irq, id, true, now).0, Some(id), notice, now) == q
    ensures SameQueueing(Preempt(cfg, irq, Some(id), notice, now), q)
  {
    InterruptQueues(q.0, id, q.1);
    assert Preempt(cfg, irq, Some(id), notice, now) == Interrupt(q.0, id, q.1);
  }

  lemma InterruptQueues(u: Irq, id: string, queued: Result<Queued, Fault>)
    requires Listed(u)
    ensures SameQueueing(Interrupt(u, id, queued), (u, queued))
  {
  }

  lemma InjectAgain(cfg: Limits, irq: Irq, session: Option<string>, notice: Notice, now: int)
    requires Listed(irq) && session.Some? && Reach(cfg, irq, session.value, true, now).1
    requires var t := Reach(cfg, irq, session.value, true, now).0; Reach(cfg, t, session.value, true, now) == (t, true)
    ensures Inject(cfg, Reach(cfg, irq, session.value, true, now).0, session, notice, now) == Inject(cfg, irq, session, notice, now)
  {
  }

  // ---- runs ---------------------------------------------------------------------------

  lemma SessionStepFine(cfg: Limits, w: World, call: Call, id: string, now: int)
    requires Kept(cfg, w) && Sensible(cfg) && SessionOf(call) == Some(id)
    ensures StepFine(cfg, w, Step(cfg, w, call, now).irq, Step(cfg, w, call, now).book)
  {
    match call
    case DoBegin(_, client, requestId, priority) =>
      ReachFine(cfg, w, id, true, now);
      BeginQuiet(cfg, w.irq, id, client, requestId, priority, now);
      QuietFine(cfg, w, Reach(cfg, w.irq, id, true, now).0, Begin(cfg, w.irq, Some(id), client, requestId, priority, now).0,
                ReachBook(cfg, w, id, true, now));
    case DoInject(_, notice) => InjectFine(cfg, w, id, notice, now);
    case DoPreempt(_, notice) => PreemptFine(cfg, w, id, notice, now);
    case DoCancel(_, reason) =>
      ReachFine(cfg, w, id, false, now);
      CancelQuiet(cfg, w.irq, id, reason, now);
      QuietFine(cfg, w, Reach(cfg, w.irq, id, false, now).0, Cancel(cfg, w.irq, Some(id), reason, now).0, ReachBook(cfg, w, id, false, now));
    case DoConsume(_) => ConsumeFine(cfg, w, id, now);
    case DoApply(_, _) => ConsumeFine(cfg, w, id, now);
    case DoLook(_) =>
      ReachFine(cfg, w, id, false, now);
      LookQuiet(cfg, w.irq, id, now);
      QuietFine(cfg, w, Reach(cfg, w.irq, id, false, now).0, Look(cfg, w.irq, Some(id), now).0, ReachBook(cfg, w, id, false, now));
  }

  lemma PreemptFine(cfg: Limits, w: World, id: string, notice: Notice, now: int)
    requires Kept(cfg, w) && Sensible(cfg)
    ensures StepFine(cfg, w, Preempt(cfg, w.irq, Some(id), notice, now).0, InjectBook(cfg, w, Some(id), notice, now))
  {
    InjectFine(cfg, w, id, notice, now);
    PreemptQueues(cfg, w.irq, id, notice, now);
  }

  /** The session that a call names, if it names one by a valid id. */
  function SessionOf(call: Call): Option<string> {
    match call
    case DoBegin(session, _, _, _) => session
    case DoInject(session, _) => session
    case DoPreempt(session, _) => session
    case DoCancel(session, _) => session
    case DoConsume(session) => session
    case DoApply(session, _) => session
    case DoLook(session) => session
    case _ => None
  }

  lemma OtherStepFine(cfg: Limits, w: World, call: Call, now: int)
    requires Kept(cfg, w) && SessionOf(call) == None
    ensures StepFine(cfg, w, Step(cfg, w, call, now).irq, Step(cfg, w, call, now).book)
  {
    match call
    case DoEnd(lease) =>
      EndQuiet(w.irq, lease, now);
      QuietFine(cfg, w, w.irq, End(w.irq, lease, now).0, w.book);
    case DoExpire =>
      ExpireFacts(cfg, w.irq, now);
      DropKeeps(cfg, w.irq.sessions, ExpireSessions(cfg, w.irq, now).sessions, w.book);
    case _ =>
  }

  lemma GrowthNumbers(w: World, next: World)
    requires Numbered(w) && LogGrows(w.book.log, w.irq.sequence, next.book.log, next.irq.sequence)
    ensures Numbered(next)
  {
    forall i | 0 <= i < |w.book.log| ensures next.book.log[i] == w.book.log[i] {
      if next.book.log != w.book.log { assert next.book.log[..|w.book.log|][i] == w.book.log[i]; }
    }
  }

  lemma StepIsFine(cfg: Limits, w: World, call: Call, now: int)
    requires Kept(cfg, w) && Sensible(cfg)
    ensures StepFine(cfg, w, Step(cfg, w, call, now).irq, Step(cfg, w, call, now).book)
  {
    if SessionOf(call).Some? { SessionStepFine(cfg, w, call, SessionOf(call).value, now); }
    else { OtherStepFine(cfg, w, call, now); }
  }

  /** Every call keeps the session cap, the lease table, and the book of events. */
  lemma StepKeeps(cfg: Limits, w: World, call: Call, now: int)
    requires Kept(cfg, w) && Sensible(cfg)
    ensures Kept(cfg, Step(cfg, w, call, now))
  {
    CallsKeepInv(cfg, w.irq, call, now);
    StepIsFine(cfg, w, call, now);
    GrowthNumbers(w, Step(cfg, w, call, now));
  }

  datatype Moment = Moment(call: Call, now: int)

  function Run(cfg: Limits, w: World, moments: seq<Moment>): (r: World)
    requires Kept(cfg, w) && Sensible(cfg)
    ensures Kept(cfg, r)
  {
    if moments == [] then w
    else
      var before, last := Run(cfg, w, moments[..|moments| - 1]), moments[|moments| - 1];
      StepKeeps(cfg, before, last.call, last.now);
      Step(cfg, before, last.call, last.now)
  }

  const EmptyWorld := World(EmptyIrq, Book([], map[], []))

  lemma EmptyIsKept(cfg: Limits)
    requires Sensible(cfg)
    ensures Kept(cfg, EmptyWorld)
  {
  }

  /** After any run, the queue of a session is the head of the priority order of everything
      offered to it since it was created or last delivered. */
  lemma QueuesAreHeads(cfg: Limits, moments: seq<Moment>, id: string)
    requires Sensible(cfg)
    ensures Kept(cfg, EmptyWorld)
    ensures var w := Run(cfg, EmptyWorld, moments);
            id in w.irq.sessions ==>
              && id in w.book.open
              && w.irq.sessions[id].pending == Take(cfg.maxPending, Sort(EventOrder(), Offered(w.book.log, w.book.open[id])))
              && |w.irq.order| <= cfg.maxSessions
  {
    EmptyIsKept(cfg);
  }

  lemma EventsAreTold(w: World, batch: nat)
    requires Numbered(w)
    ensures TotalOn(EventOrder(), Offered(w.book.log, batch))
  {
    OfferedMembers(w.book.log, batch);
    forall x, y | x in Offered(w.book.log, batch) && y in Offered(w.book.log, batch) && x != y
      ensures EventOrder()(x, y) || EventOrder()(y, x)
    {
      var i :| 0 <= i < |w.book.log| && w.book.log[i] == Record(x, batch);
      var j :| 0 <= j < |w.book.log| && w.book.log[j] == Record(y, batch);
      assert i < j || j < i;
    }
  }

  /** The queues do not depend on how they are sorted either: after any run, the queue of a session is the
      front of any arrangement by priority and arrival of everything offered to it. */
  lemma AnySortQueuesAlike(cfg: Limits, moments: seq<Moment>, id: string, arranged: seq<Event>)
    requires Sensible(cfg) && Kept(cfg, EmptyWorld)
    requires id in Run(cfg, EmptyWorld, moments).irq.sessions && id in Run(cfg, EmptyWorld, moments).book.open
    requires var w := Run(cfg, EmptyWorld, moments);
             multiset(arranged) == multiset(Offered(w.book.log, w.book.open[id])) && Sorted(EventOrder(), arranged)
    ensures Run(cfg, EmptyWorld, moments).irq.sessions[id].pending == Take(cfg.maxPending, arranged)
  {
    var w := Run(cfg, EmptyWorld, moments);
    QueuesAreHeads(cfg, moments, id);
    EventsAreOrdered();
    EventsAreTold(w, w.book.open[id]);
    AnySortAgrees(EventOrder(), Offered(w.book.log, w.book.open[id]), arranged);
  }

  /** Over whole runs: a lease that carries an abort reason carries the same one ever after, and a
      lease that has ended stays ended and is never aborted any more. */
  lemma {:induction false} ReasonsAreFinal(cfg: Limits, w: World, moments: seq<Moment>, i: nat)
    requires Kept(cfg, w) && Sensible(cfg) && i < |w.irq.leases|
    ensures var r := Run(cfg, w, moments).irq;
            && i < |r.leases|
            && (w.irq.leases[i].reason.Some? || w.irq.leases[i].ended ==> r.leases[i].reason == w.irq.leases[i].reason)
            && (w.irq.leases[i].ended ==> r.leases[i].ended)
  {
    if moments != [] {
      var front, last := moments[..|moments| - 1], moments[|moments| - 1];
      ReasonsAreFinal(cfg, w, front, i);
      AbortsOnce(cfg, Run(cfg, w, front).irq, last.call, last.now);
      assert FirstAbortWins(cfg, Run(cfg, w, front).irq, Run(cfg, w, moments).irq, last.call, last.now);
    }
  }

  // ---- fates --------------------------------------------------------------------------

  datatype Fate = Waiting | Delivered | Dropped | Displaced

  /** Where the i-th event is. */
  ghost function FateOf(w: World, i: nat): Fate
    requires i < |w.book.log|
  {
    var r := w.book.log[i];
    if r.batch >= |w.book.batches| then Displaced
    else
      var b := w.book.batches[r.batch];
      match b.state
      case Open => if b.session in w.irq.sessions && r.event in w.irq.sessions[b.session].pending then Waiting else Displaced
      case Taken(events) => if r.event in events then Delivered else Displaced
      case Lost(events) => if r.event in events then Dropped else Displaced
  }

  lemma {:induction false} OfferedMembers(log: seq<Record>, b: nat)
    ensures forall event :: event in Offered(log, b) <==> exists i :: 0 <= i < |log| && log[i] == Record(event, b)
  {
    if log != [] {
      var front, last := log[..|log| - 1], log[|log| - 1];
      OfferedMembers(front, b);
      assert log == front + [last];
      forall event ensures event in Offered(log, b) <==> exists i :: 0 <= i < |log| && log[i] == Record(event, b) {
        if event in Offered(front, b) {
          var i :| 0 <= i < |front| && front[i] == Record(event, b);
          assert log[i] == Record(event, b);
        } else if last == Record(event, b) {
          assert log[|front|] == Record(event, b);
        }
      }
    }
  }

  lemma RetainedMembers(cfg: Limits, offered: seq<Event>)
    ensures forall event :: event in Retained(cfg, offered) ==> event in offered
  {
    SortMembers(EventOrder(), offered);
    MembersAgree(Sort(EventOrder(), offered), offered);
  }

  /** An event that some batch keeps was offered to that batch and to no other. */
  lemma OneBatch(cfg: Limits, w: World, i: nat, b: nat)
    requires Numbered(w) && i < |w.book.log| && w.book.log[i].event in Retained(cfg, Offered(w.book.log, b))
    ensures w.book.log[i].batch == b
  {
    var event := w.book.log[i].event;
    RetainedMembers(cfg, Offered(w.book.log, b));
    OfferedMembers(w.book.log, b);
    var j :| 0 <= j < |w.book.log| && w.book.log[j] == Record(event, b);
    assert w.book.log[j].event.sequence == w.book.log[i].event.sequence;
  }

  /** Conservation: every event is waiting in one queue, was delivered once, was dropped with one
      idle session, or was displaced; and it is nowhere but where its fate says. */
  lemma EventsAreConserved(cfg: Limits, w: World, i: nat)
    requires Kept(cfg, w) && i < |w.book.log|
    ensures var event, home := w.book.log[i].event, w.book.log[i].batch;
            && home < |w.book.batches|
            && (forall s :: s in w.irq.sessions && event in w.irq.sessions[s].pending ==>
                  FateOf(w, i) == Waiting && s == w.book.batches[home].session)
            && (forall b :: 0 <= b < |w.book.batches| && w.book.batches[b].state.Taken? && event in w.book.batches[b].state.events ==>
                  FateOf(w, i) == Delivered && b == home)
            && (forall b :: 0 <= b < |w.book.batches| && w.book.batches[b].state.Lost? && event in w.book.batches[b].state.events ==>
                  FateOf(w, i) == Dropped && b == home)
  {
    var event, home := w.book.log[i].event, w.book.log[i].batch;
    forall s | s in w.irq.sessions && event in w.irq.sessions[s].pending
      ensures FateOf(w, i) == Waiting && s == w.book.batches[home].session
    {
      OneBatch(cfg, w, i, w.book.open[s]);
    }
    forall b | 0 <= b < |w.book.batches| && !w.book.batches[b].state.Open? && event in w.book.batches[b].state.events
      ensures b == home
    {
      OneBatch(cfg, w, i, b);
    }
  }
}
