/** The background eviction queue in front of `remember`: tickets, the serial tail, and the
    errors that wait for the next flush to complete. */
module EvictionQueue {
  import opened Common
  import opened Objects
  import opened Dreamcatcher
  import DreamcatcherStores

  datatype Job = Job(ticket: nat, input: Input)

  datatype Failure = Failure(ticket: nat, error: DbError)

  /** The queue: how many tickets were issued, the jobs not yet run, the errors not yet
      reported, and the flushes that are waiting, each for the tickets issued before it. */
  datatype Queue = Queue(issued: nat, waiting: seq<Job>, errors: seq<Failure>, flushing: map<nat, nat>)

  const EmptyQueue := Queue(0, [], [], map[])

  datatype Event =
    | Enqueue(input: Input)
    | Work(now: string)
    | FlushStart(flush: nat)
    | FlushEnd(flush: nat)

  /** What happened so far, told apart from the queue itself: the jobs run with their times,
      the failures among them, and what each completed flush reported. */
  datatype History = History(ran: seq<(Job, string)>, failed: seq<Failure>, reports: seq<seq<Failure>>)

  datatype World = World(db: Db, queue: Queue, history: History)

  function Start(db: Db): World { World(db, EmptyQueue, History([], [], [])) }

  /** A flush may complete once every ticket issued before it has been worked off. */
  predicate MayComplete(q: Queue, flush: nat) {
    flush in q.flushing && (q.waiting == [] || q.flushing[flush] < q.waiting[0].ticket)
  }

  function RunJob(d: Digests, w: World, now: string): World
    requires w.queue.waiting != []
  {
    var job := w.queue.waiting[0];
    var (db, res) := Remember(d, w.db, job.input, now);
    var failure := if res.Err? then [Failure(job.ticket, res.error)] else [];
    World(db,
          w.queue.(waiting := w.queue.waiting[1..], errors := w.queue.errors + failure),
          w.history.(ran := w.history.ran + [(job, now)], failed := w.history.failed + failure))
  }

  function StepWorld(d: Digests, w: World, e: Event): World {
    match e
    case Enqueue(input) =>
      var ticket := w.queue.issued + 1;
      w.(queue := w.queue.(issued := ticket, waiting := w.queue.waiting + [Job(ticket, input)]))
    case Work(now) => if w.queue.waiting == [] then w else RunJob(d, w, now)
    case FlushStart(flush) => w.(queue := w.queue.(flushing := w.queue.flushing[flush := w.queue.issued]))
    case FlushEnd(flush) =>
      if !MayComplete(w.queue, flush) then w
      else w.(queue := w.queue.(errors := [], flushing := w.queue.flushing - {flush}),
              history := w.history.(reports := w.history.reports + [w.queue.errors]))
  }

  /** A run of the queue in front of a store that may already hold anything. */
  function RunWorld(d: Digests, db: Db, events: seq<Event>): World {
    if events == [] then Start(db) else StepWorld(d, RunWorld(d, db, events[..|events| - 1]), events[|events| - 1])
  }

  // ---- what a run guarantees ----------------------------------------------------------

  /** The store that plain calls of `remember`, one after the other, produce. */
  function Fold(d: Digests, db: Db, jobs: seq<(Job, string)>): Db {
    if jobs == [] then db
    else Remember(d, Fold(d, db, jobs[..|jobs| - 1]), jobs[|jobs| - 1].0.input, jobs[|jobs| - 1].1).0
  }

  function Concat(reports: seq<seq<Failure>>): seq<Failure> {
    if reports == [] then [] else Concat(reports[..|reports| - 1]) + reports[|reports| - 1]
  }

  /** The failures of the plain calls. */
  function Failures(d: Digests, db: Db, jobs: seq<(Job, string)>): seq<Failure> {
    if jobs == [] then []
    else
      var (job, now) := jobs[|jobs| - 1];
      var res := Remember(d, Fold(d, db, jobs[..|jobs| - 1]), job.input, now).1;
      Failures(d, db, jobs[..|jobs| - 1]) + if res.Err? then [Failure(job.ticket, res.error)] else []
  }

  ghost predicate Numbered(w: World) {
    && |w.history.ran| + |w.queue.waiting| == w.queue.issued
    && (forall i :: 0 <= i < |w.history.ran| ==> w.history.ran[i].0.ticket == i + 1)
    && (forall i :: 0 <= i < |w.queue.waiting| ==> w.queue.waiting[i].ticket == |w.history.ran| + i + 1)
  }

  ghost predicate Sequential(d: Digests, db: Db, w: World) {
    && w.db == Fold(d, db, w.history.ran)
    && w.history.failed == Failures(d, db, w.history.ran)
    && w.history.failed == Concat(w.history.reports) + w.queue.errors
  }

  /** Over every interleaving of enqueues, background work and flushes: jobs run in ticket
      order and none is skipped; the store is what the same `remember` calls produce one
      after the other; and the failures of those calls, in order, are exactly what the
      completed flushes reported, in order, followed by what is still to be reported. */
  lemma {:induction false} QueueIsSequential(d: Digests, db: Db, events: seq<Event>)
    ensures Numbered(RunWorld(d, db, events)) && Sequential(d, db, RunWorld(d, db, events))
  {
    if events != [] {
      QueueIsSequential(d, db, events[..|events| - 1]);
      StepIsSequential(d, db, RunWorld(d, db, events[..|events| - 1]), events[|events| - 1]);
    }
  }

  lemma StepIsSequential(d: Digests, db: Db, w: World, e: Event)
    requires Numbered(w) && Sequential(d, db, w)
    ensures Numbered(StepWorld(d, w, e)) && Sequential(d, db, StepWorld(d, w, e))
  {
    if e.Work? && w.queue.waiting != [] {
      WorkIsSequential(d, db, w, e.now);
    } else if e.FlushEnd? && MayComplete(w.queue, e.flush) {
      var after := StepWorld(d, w, e);
      assert after.history.reports[..|after.history.reports| - 1] == w.history.reports;
      assert Concat(after.history.reports) + [] == Concat(after.history.reports);
    }
  }

  lemma WorkIsSequential(d: Digests, db: Db, w: World, now: string)
    requires Numbered(w) && Sequential(d, db, w) && w.queue.waiting != []
    ensures Numbered(RunJob(d, w, now)) && Sequential(d, db, RunJob(d, w, now))
  {
    var after := RunJob(d, w, now);
    assert after.history.ran[..|after.history.ran| - 1] == w.history.ran;
    assert after.history.ran[|after.history.ran| - 1] == (w.queue.waiting[0], now);
    var failure := Remember(d, w.db, w.queue.waiting[0].input, now).1;
    assert failure.Err? ==>
      Concat(w.history.reports) + w.queue.errors + [Failure(w.queue.waiting[0].ticket, failure.error)]
      == Concat(w.history.reports) + (w.queue.errors + [Failure(w.queue.waiting[0].ticket, failure.error)]);
  }

  /** A completed flush leaves nothing unreported, and everything enqueued before it started
      has been run: it is a durability boundary. */
  lemma FlushIsABoundary(d: Digests, db: Db, events: seq<Event>, flush: nat)
    requires MayComplete(RunWorld(d, db, events).queue, flush)
    ensures RunWorld(d, db, events).queue.flushing[flush] <= |RunWorld(d, db, events).history.ran|
    ensures var (before, after) := (RunWorld(d, db, events), RunWorld(d, db, events + [FlushEnd(flush)]));
            after.queue.errors == [] && after.history.reports == before.history.reports + [before.queue.errors]
  {
    QueueIsSequential(d, db, events);
    FlushTargets(d, db, events, flush);
    assert (events + [FlushEnd(flush)])[..|events|] == events;
  }

  lemma {:induction false} FlushTargets(d: Digests, db: Db, events: seq<Event>, flush: nat)
    requires flush in RunWorld(d, db, events).queue.flushing
    ensures RunWorld(d, db, events).queue.flushing[flush] <= RunWorld(d, db, events).queue.issued
  {
    var before := RunWorld(d, db, events[..|events| - 1]);
    if flush in before.queue.flushing {
      FlushTargets(d, db, events[..|events| - 1], flush);
    }
  }

  // ---- what a flush covers --------------------------------------------------------------

  /** The inputs that were enqueued, in order. */
  function InputsOf(events: seq<Event>): seq<Input> {
    if events == [] then []
    else
      var front, last := InputsOf(events[..|events| - 1]), events[|events| - 1];
      if last.Enqueue? then front + [last.input] else front
  }

  /** The inputs of a world: those run, in the order in which they ran, and those still waiting. */
  function InputsIn(w: World): seq<Input> {
    seq(|w.history.ran|, i requires 0 <= i < |w.history.ran| => w.history.ran[i].0.input)
    + seq(|w.queue.waiting|, i requires 0 <= i < |w.queue.waiting| => w.queue.waiting[i].input)
  }

  /** Nothing that was enqueued is lost, and nothing overtakes. */
  lemma {:induction false} InputsAreKept(d: Digests, db: Db, events: seq<Event>)
    ensures InputsIn(RunWorld(d, db, events)) == InputsOf(events)
  {
    if events != [] {
      var before, e := RunWorld(d, db, events[..|events| - 1]), events[|events| - 1];
      InputsAreKept(d, db, events[..|events| - 1]);
      if e.Work? && before.queue.waiting != [] { WorkKeepsInputs(d, before, e.now); }
    }
  }

  lemma WorkKeepsInputs(d: Digests, w: World, now: string)
    requires w.queue.waiting != []
    ensures InputsIn(RunJob(d, w, now)) == InputsIn(w)
  {
    var after, n := RunJob(d, w, now), |w.history.ran|;
    assert after.history.ran == w.history.ran + [(w.queue.waiting[0], now)] && after.queue.waiting == w.queue.waiting[1..];
    forall i | 0 <= i < |InputsIn(w)| ensures InputsIn(after)[i] == InputsIn(w)[i] {
      if i > n { assert w.queue.waiting[1..][i - n - 1] == w.queue.waiting[i - n]; }
    }
  }

  lemma {:induction false} TargetStays(d: Digests, db: Db, before: seq<Event>, between: seq<Event>, flush: nat)
    requires FlushStart(flush) !in between
    ensures var w := RunWorld(d, db, before + [FlushStart(flush)] + between);
            flush in w.queue.flushing ==> w.queue.flushing[flush] == |InputsOf(before)|
  {
    var all := before + [FlushStart(flush)] + between;
    if between == [] {
      assert all[..|all| - 1] == before && all[|all| - 1] == FlushStart(flush);
      InputsAreKept(d, db, before);
      QueueIsSequential(d, db, before);
    } else {
      var last := between[|between| - 1];
      assert all[..|all| - 1] == before + [FlushStart(flush)] + between[..|between| - 1] && all[|all| - 1] == last;
      assert last in between;
      TargetStays(d, db, before, between[..|between| - 1], flush);
    }
  }

  /** When a flush may complete, every input that was enqueued before it began has been run, in the
      order in which they were enqueued. */
  lemma FlushCoversEarlier(d: Digests, db: Db, before: seq<Event>, between: seq<Event>, flush: nat)
    requires FlushStart(flush) !in between
    requires MayComplete(RunWorld(d, db, before + [FlushStart(flush)] + between).queue, flush)
    ensures var ran := RunWorld(d, db, before + [FlushStart(flush)] + between).history.ran;
            && |InputsOf(before)| <= |ran|
            && forall i :: 0 <= i < |InputsOf(before)| ==> ran[i].0.input == InputsOf(before)[i]
  {
    var all := before + [FlushStart(flush)] + between;
    TargetStays(d, db, before, between, flush);
    FlushIsABoundary(d, db, all, flush);
    InputsAreKept(d, db, all);
    assert all == before + ([FlushStart(flush)] + between);
    InputsGrow(before, [FlushStart(flush)] + between);
    var w := RunWorld(d, db, all);
    forall i | 0 <= i < |InputsOf(before)| ensures w.history.ran[i].0.input == InputsOf(before)[i] {
      assert InputsIn(w)[i] == w.history.ran[i].0.input;
    }
  }

  lemma {:induction false} InputsGrow(before: seq<Event>, more: seq<Event>)
    ensures InputsOf(before) <= InputsOf(before + more)
  {
    if more == [] { assert before + more == before; }
    else {
      assert (before + more)[..|before + more| - 1] == before + more[..|more| - 1];
      InputsGrow(before, more[..|more| - 1]);
    }
  }

  /** Skipping the inputs that failed changes nothing: no failure moves a branch or the
      picture, and the store still depicts the picture of the successful writes alone. */
  ghost function PictureOf(d: Digests, c: Picture, jobs: seq<(Job, string)>): Picture {
    if jobs == [] then c
    else
      var before := PictureOf(d, c, jobs[..|jobs| - 1]);
      var (job, now) := jobs[|jobs| - 1];
      Recorded(d, before, job.input, now)
  }

  lemma {:induction false} FailuresAreSkipped(d: Digests, db: Db, c: Picture, jobs: seq<(Job, string)>)
    requires d.WellFormed() && Depicts(d, db, c) && Fold(d, db, jobs).heap.clean
    ensures Depicts(d, Fold(d, db, jobs), PictureOf(d, c, jobs))
    ensures jobs != [] ==>
              var before := Fold(d, db, jobs[..|jobs| - 1]);
              var (job, now) := jobs[|jobs| - 1];
              Remember(d, before, job.input, now).1.Err? ==>
                && Fold(d, db, jobs).refs == before.refs
                && PictureOf(d, c, jobs) == PictureOf(d, c, jobs[..|jobs| - 1])
  {
    if jobs != [] {
      var before := Fold(d, db, jobs[..|jobs| - 1]);
      var (job, now) := jobs[|jobs| - 1];
      StepIsCleanOnlyFromClean(d, before, Write(job.input, now));
      FailuresAreSkipped(d, db, c, jobs[..|jobs| - 1]);
      RememberRefines(d, before, PictureOf(d, c, jobs[..|jobs| - 1]), job.input, now);
    }
  }

  /** A batch of jobs that are all run at one time. */
  function At(now: string, jobs: seq<Job>): seq<(Job, string)> {
    seq(|jobs|, i requires 0 <= i < |jobs| => (jobs[i], now))
  }

  /** The queue's side of the store object. */
  class BackgroundWriter {
    const store: DreamcatcherStores.DreamcatcherStore
    var issued: nat
    var waiting: seq<Job>
    var errors: seq<Failure>

    constructor (store: DreamcatcherStores.DreamcatcherStore)
      ensures this.store == store && issued == 0 && waiting == [] && errors == []
    {
      this.store := store;
      issued, waiting, errors := 0, [], [];
    }

    method EnqueueEviction(input: Input) returns (ticket: nat)
      modifies this`issued, this`waiting
      ensures ticket == old(issued) + 1 == issued
      ensures waiting == old(waiting) + [Job(ticket, input)]
    {
      issued := issued + 1;
      ticket := issued;
      waiting := waiting + [Job(ticket, input)];
    }

    /** Works off the whole tail, then hands over and forgets the errors collected since the
        last flush. An empty report stands for a normal return. */
    method Flush(now: string) returns (report: seq<Failure>)
      modifies this`waiting, this`errors, store
      ensures waiting == [] && errors == []
      ensures store.State() == Fold(store.d, old(store.State()), At(now, old(waiting)))
      ensures report == old(errors) + Failures(store.d, old(store.State()), At(now, old(waiting)))
    {
      ghost var jobs, db := waiting, store.State();
      ghost var done := 0;
      assert At(now, jobs[..0]) == [];
      while waiting != []
        invariant 0 <= done <= |jobs| && waiting == jobs[done..]
        invariant store.State() == Fold(store.d, db, At(now, jobs[..done]))
        invariant errors == old(errors) + Failures(store.d, db, At(now, jobs[..done]))
        decreases |waiting|
      {
        var job := waiting[0];
        AtStep(now, jobs, done);
        var res := store.Remember(job.input, now);
        if res.Err? {
          errors := errors + [Failure(job.ticket, res.error)];
        }
        waiting := waiting[1..];
        done := done + 1;
      }
      assert jobs[..done] == jobs;
      report := errors;
      errors := [];
    }
  }

  lemma AtStep(now: string, jobs: seq<Job>, done: nat)
    requires done < |jobs|
    ensures At(now, jobs[..done + 1]) == At(now, jobs[..done]) + [(jobs[done], now)]
    ensures At(now, jobs[..done + 1])[..done] == At(now, jobs[..done])
  {
  }
}
