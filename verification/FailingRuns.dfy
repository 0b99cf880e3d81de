/** Concrete runs from the empty state in which a property fails whose exact condition is proved
    elsewhere. */
module FailingRuns {
  import opened Common
  import Scheduler
  import IdleScheduler
  import SchedulerRuns
  import SchedulerLedger
  import CountingBlooms
  import Codebooks
  import CodebookRuns
  import CodebookTheorems
  import Interrupts
  import Decimal
  import Sorting

  // ---- an exhausted task with attempts left --------------------------------------------

  function AtZero(call: IdleScheduler.Call): SchedulerLedger.Event { SchedulerLedger.Event(call, 0) }

  const OneShot := Scheduler.TaskSpec("t", "d", 0, {}, 0, 1, 0, false, true)

  /** A task with one attempt fails, and is then rearmed with two attempts and time -1. */
  const SpoilingEvents: seq<SchedulerLedger.Event> := [
    AtZero(IdleScheduler.DoRegisterDrive("d", None, 0, true)),
    AtZero(IdleScheduler.DoRegisterTask(OneShot)),
    AtZero(IdleScheduler.DoObserve(0, false)),
    AtZero(IdleScheduler.DoPromote({})),
    AtZero(IdleScheduler.DoSettle(1, Scheduler.Failed)),
    AtZero(IdleScheduler.DoRearm("t", Some(2), -1))]

  const DriveOnly := Scheduler.Registry(["d"], map["d" := Scheduler.Drive("d", None, 0, true)], [], map[])

  function WithTask(attempts: int, maxAttempts: int, status: Scheduler.Status, outcome: Option<Scheduler.Outcome>): Scheduler.Registry {
    DriveOnly.(taskOrder := ["t"],
               tasks := map["t" := Scheduler.Task("t", "d", 0, {}, maxAttempts, 0, false, true, attempts, 0, status, 0, outcome)])
  }

  function Before(reg: Scheduler.Registry): IdleScheduler.Sched {
    IdleScheduler.Sched(reg, 1000, 1, 0, false, None, 0)
  }

  function After(reg: Scheduler.Registry, active: Option<IdleScheduler.Active>): IdleScheduler.Sched {
    IdleScheduler.Sched(reg, 1000, 1, 1, true, active, 1)
  }

  const Holding := Some(IdleScheduler.Active(1, "t", 1000))

  lemma Housing()
    ensures Scheduler.Housed(Scheduler.EmptyRegistry) && Scheduler.Housed(DriveOnly)
  {
  }

  lemma TaskHousing(attempts: int, maxAttempts: int, status: Scheduler.Status, outcome: Option<Scheduler.Outcome>)
    ensures Scheduler.Housed(WithTask(attempts, maxAttempts, status, outcome))
  {
  }

  lemma Registering()
    requires Scheduler.Housed(Scheduler.EmptyRegistry) && Scheduler.Housed(DriveOnly)
    ensures IdleScheduler.Do(Before(Scheduler.EmptyRegistry), SpoilingEvents[0].call, 0).s == Before(DriveOnly)
    ensures IdleScheduler.Do(Before(DriveOnly), SpoilingEvents[1].call, 0).s == Before(WithTask(0, 1, Scheduler.Ready, None))
  {
  }

  lemma Observing()
    requires Scheduler.Housed(WithTask(0, 1, Scheduler.Ready, None))
    ensures IdleScheduler.Do(Before(WithTask(0, 1, Scheduler.Ready, None)), SpoilingEvents[2].call, 0).s
            == Before(WithTask(0, 1, Scheduler.Ready, None)).(idle := true)
  {
  }

  lemma Selecting(reg: Scheduler.Registry)
    requires reg == WithTask(0, 1, Scheduler.Ready, None) && Scheduler.Housed(reg)
    ensures Scheduler.SelectCandidate(reg, 0, {}) == Some(reg.tasks["t"])
  {
    Scheduler.SelectionIsMinimum(reg, 0, {});
    PathOfTheDrive(reg);
    assert Scheduler.Eligible(reg, "t", 0, {});
  }

  lemma PathOfTheDrive(reg: Scheduler.Registry)
    requires reg == WithTask(0, 1, Scheduler.Ready, None) && Scheduler.Housed(reg)
    ensures Scheduler.DrivePath(reg, "d") == [Scheduler.Drive("d", None, 0, true)]
  {
  }

  lemma Promoting(reg: Scheduler.Registry)
    requires reg == WithTask(0, 1, Scheduler.Ready, None) && Scheduler.Housed(reg)
    requires Scheduler.SelectCandidate(reg, 0, {}) == Some(reg.tasks["t"])
    ensures IdleScheduler.Do(Before(reg).(idle := true), SpoilingEvents[3].call, 0).s == After(WithTask(1, 1, Scheduler.Leased, None), Holding)
  {
    TaskIsIssued(reg, Before(reg).(idle := true));
    IssuedLease(reg, Before(reg).(idle := true));
  }

  lemma TaskIsIssued(reg: Scheduler.Registry, s: IdleScheduler.Sched)
    requires reg == WithTask(0, 1, Scheduler.Ready, None) && Scheduler.Housed(reg) && s == Before(reg).(idle := true)
    requires Scheduler.SelectCandidate(reg, 0, {}) == Some(reg.tasks["t"])
    ensures IdleScheduler.TryPromote(s, {}, 0) == IdleScheduler.Issue(IdleScheduler.Just(s), "t", 0)
  {
  }

  lemma IssuedLease(reg: Scheduler.Registry, s: IdleScheduler.Sched)
    requires reg == WithTask(0, 1, Scheduler.Ready, None) && Scheduler.Housed(reg) && s == Before(reg).(idle := true)
    ensures IdleScheduler.Issue(IdleScheduler.Just(s), "t", 0).s == After(WithTask(1, 1, Scheduler.Leased, None), Holding)
  {
  }

  lemma Settling()
    requires Scheduler.Housed(WithTask(1, 1, Scheduler.Leased, None))
    ensures IdleScheduler.Do(After(WithTask(1, 1, Scheduler.Leased, None), Holding), SpoilingEvents[4].call, 0).s
            == After(WithTask(1, 1, Scheduler.Exhausted, Some(Scheduler.Failed)), None)
  {
  }

  lemma Rearming()
    requires Scheduler.Housed(WithTask(1, 1, Scheduler.Exhausted, Some(Scheduler.Failed)))
    ensures IdleScheduler.Do(After(WithTask(1, 1, Scheduler.Exhausted, Some(Scheduler.Failed)), None), SpoilingEvents[5].call, 0).s
            == After(WithTask(1, 2, Scheduler.Exhausted, Some(Scheduler.Failed)), None)
  {
  }

  /** At time zero the call leads from one state to the other. */
  ghost predicate Leads(a: IdleScheduler.Sched, call: IdleScheduler.Call, b: IdleScheduler.Sched) {
    Scheduler.Housed(a.reg) && forall now :: now == 0 ==> IdleScheduler.Do(a, call, now).s == b
  }

  lemma Next(w: SchedulerLedger.World, events: seq<SchedulerLedger.Event>, i: nat, a: IdleScheduler.Sched, b: IdleScheduler.Sched)
    requires SchedulerLedger.Ledger(w) && i < |events| && events[i].now == 0 && Leads(a, events[i].call, b)
    requires SchedulerLedger.Run(w, events[..i]).s == a
    ensures SchedulerLedger.Run(w, events[..i + 1]).s == b
  {
    SchedulerLedger.NextOfRun(w, events, i);
  }

  lemma Start(w: SchedulerLedger.World, events: seq<SchedulerLedger.Event>)
    requires SchedulerLedger.Ledger(w)
    ensures SchedulerLedger.Run(w, events[..0]) == w
  {
  }

  lemma AllSteps(s1: IdleScheduler.Sched, s2: IdleScheduler.Sched, s3: IdleScheduler.Sched, s4: IdleScheduler.Sched, s5: IdleScheduler.Sched)
    requires s1 == Before(DriveOnly) && s2 == Before(WithTask(0, 1, Scheduler.Ready, None)) && s3 == s2.(idle := true)
    requires s4 == After(WithTask(1, 1, Scheduler.Leased, None), Holding)
    requires s5 == After(WithTask(1, 1, Scheduler.Exhausted, Some(Scheduler.Failed)), None)
    ensures Leads(Before(Scheduler.EmptyRegistry), SpoilingEvents[0].call, s1)
    ensures Leads(s1, SpoilingEvents[1].call, s2) && Leads(s2, SpoilingEvents[2].call, s3) && Leads(s3, SpoilingEvents[3].call, s4)
    ensures Leads(s4, SpoilingEvents[4].call, s5)
    ensures Leads(s5, SpoilingEvents[5].call, After(WithTask(1, 2, Scheduler.Exhausted, Some(Scheduler.Failed)), None))
  {
    Housing();
    TaskHousing(0, 1, Scheduler.Ready, None);
    TaskHousing(1, 1, Scheduler.Leased, None);
    TaskHousing(1, 1, Scheduler.Exhausted, Some(Scheduler.Failed));
    Registering();
    Observing();
    Selecting(s2.reg);
    Promoting(s2.reg);
    Settling();
    Rearming();
  }

  /** From a fresh scheduler, the rejected rearm leaves an exhausted task with an attempt left. */
  lemma ExhaustedWithAttemptsLeft(w: SchedulerLedger.World, events: seq<SchedulerLedger.Event>)
    requires w == SchedulerLedger.Fresh(1000, 1) && events == SpoilingEvents
    ensures SchedulerLedger.Ledger(w)
    ensures SchedulerLedger.Run(w, events).s.reg == WithTask(1, 2, Scheduler.Exhausted, Some(Scheduler.Failed))
    ensures !IdleScheduler.TasksBudgeted(SchedulerLedger.Run(w, events).s.reg)
  {
    var s2, s4 := Before(WithTask(0, 1, Scheduler.Ready, None)), After(WithTask(1, 1, Scheduler.Leased, None), Holding);
    var s5 := After(WithTask(1, 1, Scheduler.Exhausted, Some(Scheduler.Failed)), None);
    SchedulerLedger.FreshIsSound(1000, 1);
    AllSteps(Before(DriveOnly), s2, s2.(idle := true), s4, s5);
    Chain(w, events, Before(DriveOnly), s2, s2.(idle := true), s4, s5,
          After(WithTask(1, 2, Scheduler.Exhausted, Some(Scheduler.Failed)), None));
    Unbudgeted();
  }

  lemma Chain(w: SchedulerLedger.World, events: seq<SchedulerLedger.Event>, s1: IdleScheduler.Sched, s2: IdleScheduler.Sched,
              s3: IdleScheduler.Sched, s4: IdleScheduler.Sched, s5: IdleScheduler.Sched, s6: IdleScheduler.Sched)
    requires SchedulerLedger.Ledger(w) && |events| == 6 && forall i :: 0 <= i < 6 ==> events[i].now == 0
    requires Leads(w.s, events[0].call, s1) && Leads(s1, events[1].call, s2) && Leads(s2, events[2].call, s3)
    requires Leads(s3, events[3].call, s4) && Leads(s4, events[4].call, s5) && Leads(s5, events[5].call, s6)
    ensures SchedulerLedger.Run(w, events).s == s6
  {
    Start(w, events);
    Next(w, events, 0, w.s, s1);
    Next(w, events, 1, s1, s2);
    Next(w, events, 2, s2, s3);
    Next(w, events, 3, s3, s4);
    Next(w, events, 4, s4, s5);
    Next(w, events, 5, s5, s6);
    WholeRun(w, events);
  }

  lemma WholeRun(w: SchedulerLedger.World, events: seq<SchedulerLedger.Event>)
    requires SchedulerLedger.Ledger(w) && |events| == 6
    ensures SchedulerLedger.Run(w, events) == SchedulerLedger.Run(w, events[..6])
  {
    assert events[..6] == events;
  }

  lemma Unbudgeted()
    ensures !IdleScheduler.TasksBudgeted(WithTask(1, 2, Scheduler.Exhausted, Some(Scheduler.Failed)))
  {
    assert "t" in WithTask(1, 2, Scheduler.Exhausted, Some(Scheduler.Failed)).tasks;
  }

  // ---- a phrase that the filter does not know ------------------------------------------

  /** A phrase under a forced id, and then another under the first automatic id. */
  const CollidingPuts: seq<Codebooks.Command> := [Codebooks.DoPut("k", "a", "s1", 0), Codebooks.DoPut("k", "b", "", 0)]

  function OneSlot(phrase: string, hits: int): seq<Codebooks.Slot> {
    [Codebooks.Slot("s1", Codebooks.Entry(phrase, "k", hits, 0, 0))]
  }

  const NoBloom: CountingBlooms.Bloom := CountingBlooms.Empty(8192, 4)

  lemma NoBloomIsShaped()
    ensures CountingBlooms.Shaped(NoBloom)
    ensures forall d, phrase :: !CountingBlooms.Contains(d, NoBloom, phrase)
  {
    forall d, phrase ensures !CountingBlooms.Contains(d, NoBloom, phrase) {
      assert NoBloom.counters[CountingBlooms.Probe(d, NoBloom.m, phrase, 0)] == 0;
    }
  }

  lemma FirstPut(env: Codebooks.Env, s: Codebooks.Store)
    requires env.sessionCap >= 1 && s == Codebooks.Session(env, Codebooks.World(None, None))
    ensures var (next, reply) := Codebooks.Put(env.d, s, "k", "a", "s1", 0);
            && reply == Codebooks.Added("s1") && next.slots == OneSlot("a", 1)
            && next.cap == s.cap && next.nextId == 1
            && next.bloom == CountingBlooms.Add(env.d, CountingBlooms.Asked(env.d, NoBloom, "a"), "a")
  {
    NoBloomIsShaped();
    assert s == Codebooks.Store(env.sessionCap, 1, [], NoBloom);
  }

  lemma SavedAndLoaded(env: Codebooks.Env, s: Codebooks.Store, cap: int)
    requires |s.slots| == 1 && CountingBlooms.Shaped(s.bloom) && s.bloom.inserts == 1
    ensures Codebooks.Load(env, Codebooks.Save(s), cap) == s
  {
    CountingBlooms.JsonRoundTrip(s.bloom);
    assert s.slots[..0] == [];
    assert Sorting.Sort(Codebooks.ByAge(env), s.slots) == s.slots;
  }

  lemma SecondPut(env: Codebooks.Env, s: Codebooks.Store)
    requires s.slots == OneSlot("a", 1) && s.nextId == 1 && s.cap >= 1 && CountingBlooms.Shaped(s.bloom)
    ensures var (next, reply) := Codebooks.Put(env.d, s, "k", "b", "", 0);
            && reply == Codebooks.Updated("s1") && next.slots == OneSlot("b", 2)
            && next.bloom == CountingBlooms.Asked(env.d, s.bloom, "b")
  {
    CountingBlooms.UpdatesStayShaped(env.d, s.bloom, "b");
    assert Decimal.Dec(1) == "1";
    assert "s" + Decimal.Dec(s.nextId) == "s1";
  }

  lemma {:induction false} NeverHit(indexes: seq<nat>, j: nat)
    requires j !in indexes
    ensures CountingBlooms.Count(indexes, j) == 0
  {
    if indexes != [] { NeverHit(indexes[..|indexes| - 1], j); }
  }

  /** Some probe of "b" is none of "a". */
  ghost predicate ProbesApart(d: CountingBlooms.Digests) {
    exists i: nat :: i < 4 && CountingBlooms.Probe(d, 8192, "b", i) !in CountingBlooms.Indexes(d, 8192, 4, "a")
  }

  lemma OnlyKnowsA(d: CountingBlooms.Digests, b: CountingBlooms.Bloom)
    requires ProbesApart(d) && b == CountingBlooms.Add(d, CountingBlooms.Asked(d, NoBloom, "a"), "a")
    ensures CountingBlooms.Shaped(b) && !CountingBlooms.Contains(d, b, "b")
  {
    NoBloomIsShaped();
    CountingBlooms.UpdatesStayShaped(d, NoBloom, "a");
    CountingBlooms.UpdatesStayShaped(d, CountingBlooms.Asked(d, NoBloom, "a"), "a");
    var indexes := CountingBlooms.Indexes(d, 8192, 4, "a");
    var i: nat :| i < 4 && CountingBlooms.Probe(d, 8192, "b", i) !in indexes;
    var j := CountingBlooms.Probe(d, 8192, "b", i);
    NeverHit(indexes, j);
    CountingBlooms.UpAllAt(NoBloom.counters, indexes, j);
    assert b.counters[j] == 0;
  }

  lemma Puts(env: Codebooks.Env, w0: Codebooks.World, w1: Codebooks.World, w2: Codebooks.World)
    requires env.sessionCap >= 1 && ProbesApart(env.d) && w0 == Codebooks.World(None, None)
    requires w1 == Codebooks.Do(env, w0, CollidingPuts[0]) && w2 == Codebooks.Do(env, w1, CollidingPuts[1])
    ensures Codebooks.Session(env, w2).slots == OneSlot("b", 2)
    ensures !CountingBlooms.Contains(env.d, Codebooks.Session(env, w2).bloom, "b")
    ensures w2.user == None
  {
    var s0 := Codebooks.Session(env, w0);
    FirstPut(env, s0);
    var s1 := Codebooks.Put(env.d, s0, "k", "a", "s1", 0).0;
    OnlyKnowsA(env.d, s1.bloom);
    SavedAndLoaded(env, s1, env.sessionCap);
    SecondPut(env, s1);
    var s2 := Codebooks.Put(env.d, s1, "k", "b", "", 0).0;
    CountingBlooms.UpdatesStayShaped(env.d, s1.bloom, "b");
    SavedAndLoaded(env, s2, env.sessionCap);
  }

  /** From no files, two puts suffice for a stored phrase that the gated lookup does not find. */
  lemma StoredButNotFound(env: Codebooks.Env, cs: seq<Codebooks.Command>)
    requires env.sessionCap >= 1 && ProbesApart(env.d) && cs == CollidingPuts
    ensures var w := CodebookTheorems.Run(env, Codebooks.World(None, None), cs);
            && CodebookTheorems.PlainGet(env, w, "b") == Some(OneSlot("b", 2)[0])
            && Codebooks.Get(env, w, "b").1 == None
            && !CodebookTheorems.GoodWorld(env, w)
  {
    var w0 := Codebooks.World(None, None);
    var w1 := Codebooks.Do(env, w0, cs[0]);
    var w2 := Codebooks.Do(env, w1, cs[1]);
    Puts(env, w0, w1, w2);
    TwoCommands(env, w0, cs);
    Answers(env, w2);
  }

  lemma TwoCommands(env: Codebooks.Env, w: Codebooks.World, cs: seq<Codebooks.Command>)
    requires |cs| == 2
    ensures CodebookTheorems.Run(env, w, cs) == Codebooks.Do(env, Codebooks.Do(env, w, cs[0]), cs[1])
  {
    assert cs[..1][..0] == [];
    assert CodebookTheorems.Run(env, w, cs[..1]) == Codebooks.Do(env, w, cs[0]);
  }

  lemma Answers(env: Codebooks.Env, w: Codebooks.World)
    requires Codebooks.Session(env, w).slots == OneSlot("b", 2) && w.user == None
    requires !CountingBlooms.Contains(env.d, Codebooks.Session(env, w).bloom, "b")
    ensures CodebookTheorems.PlainGet(env, w, "b") == Some(OneSlot("b", 2)[0])
    ensures Codebooks.Get(env, w, "b").1 == None
    ensures !CodebookTheorems.GoodWorld(env, w)
  {
    NoBloomIsShaped();
    var s := Codebooks.Session(env, w);
    if CodebookTheorems.GoodWorld(env, w) { CodebookRuns.GatingIsInvisible(env.d, s, "b"); }
  }

  // ---- a store without room ------------------------------------------------------------

  lemma NothingIsFound(env: Codebooks.Env, s: Codebooks.Store, phrase: string)
    requires s == Codebooks.Session(env, Codebooks.World(None, None))
    ensures s.cap == env.sessionCap && Codebooks.GatedFind(env.d, s, phrase).None?
  {
    NoBloomIsShaped();
  }

  /** From no files, whatever phrase is put first: below a negative cap the put never returns, and at
      cap zero it raises. */
  lemma FirstPutFails(env: Codebooks.Env, kind: string, phrase: string, forced: string, now: int)
    requires !Codebooks.Unusable(phrase)
    ensures var reply := Codebooks.Put(env.d, Codebooks.Session(env, Codebooks.World(None, None)), kind, phrase, forced, now).1;
            (reply.Endless? <==> env.sessionCap < 0) && (reply.Lost? <==> env.sessionCap == 0)
  {
    var s := Codebooks.Session(env, Codebooks.World(None, None));
    NothingIsFound(env, s, phrase);
    CodebookTheorems.PutEndsByCap(env.d, s, kind, phrase, forced, now);
  }

  // ---- events delivered to no one ------------------------------------------------------

  /** One event is injected into a new session, and applied to a body that is not an object: the
      call is refused, and the queue is empty. */
  lemma DeliveredToNoBody(cfg: Interrupts.Limits, id: string, notice: Interrupts.Notice, now: int)
    requires Interrupts.Sensible(cfg) && notice.Notice? && 0 <= notice.priority <= 255
    ensures var irq := Interrupts.Inject(cfg, Interrupts.EmptyIrq, Some(id), notice, now).0;
            var (next, r) := Interrupts.ApplyPending(cfg, irq, Some(id), None, now);
            && id in irq.sessions && |irq.sessions[id].pending| == 1
            && r == Err(Interrupts.BadBody) && id in next.sessions && next.sessions[id].pending == []
  {
    FirstEvent(cfg, id, notice, now, OneEvent(id, notice, now));
    EventIsGone(cfg, id, notice, now, OneEvent(id, notice, now));
  }

  function OneEvent(id: string, notice: Interrupts.Notice, now: int): Interrupts.Irq
    requires notice.Notice?
  {
    Interrupts.Irq([id], map[id := Interrupts.Session(None, [Interrupts.EventOf(notice, now, 0)], now)], [], 1, {})
  }

  lemma FirstEvent(cfg: Interrupts.Limits, id: string, notice: Interrupts.Notice, now: int, irq: Interrupts.Irq)
    requires Interrupts.Sensible(cfg) && notice.Notice? && 0 <= notice.priority <= 255 && irq == OneEvent(id, notice, now)
    ensures Interrupts.Inject(cfg, Interrupts.EmptyIrq, Some(id), notice, now).0 == irq
  {
    var t := Interrupts.Irq([id], map[id := Interrupts.Session(None, [], now)], [], 0, {});
    NewSession(cfg, Interrupts.EmptyIrq, t, id, now);
    OneIsRetained(cfg, Interrupts.EventOf(notice, now, 0));
    assert [] + [Interrupts.EventOf(notice, now, 0)] == [Interrupts.EventOf(notice, now, 0)];
    EventIsQueued(cfg, t, id, notice, now, irq);
  }

  lemma NewSession(cfg: Interrupts.Limits, empty: Interrupts.Irq, t: Interrupts.Irq, id: string, now: int)
    requires Interrupts.Sensible(cfg) && empty == Interrupts.EmptyIrq
    requires t == Interrupts.Irq([id], map[id := Interrupts.Session(None, [], now)], [], 0, {})
    ensures Interrupts.Listed(empty) && Interrupts.Reach(cfg, empty, id, true, now) == (t, true)
  {
    assert Interrupts.Clear(cfg, empty, id, true, now) == empty;
    assert Interrupts.Put(empty, id, Interrupts.Session(None, [], now)) == t;
  }

  lemma OneIsRetained(cfg: Interrupts.Limits, event: Interrupts.Event)
    requires Interrupts.Sensible(cfg)
    ensures Interrupts.Retained(cfg, [event]) == [event]
  {
    assert [event][..0] == [];
    assert Sorting.Sort(Interrupts.EventOrder(), [event]) == [event];
  }

  lemma EventIsQueued(cfg: Interrupts.Limits, t: Interrupts.Irq, id: string, notice: Interrupts.Notice, now: int, irq: Interrupts.Irq)
    requires t == Interrupts.Irq([id], map[id := Interrupts.Session(None, [], now)], [], 0, {})
    requires notice.Notice? && 0 <= notice.priority <= 255 && irq == OneEvent(id, notice, now)
    requires Interrupts.Retained(cfg, [] + [Interrupts.EventOf(notice, now, 0)]) == [Interrupts.EventOf(notice, now, 0)]
    ensures Interrupts.Listed(t) && Interrupts.Enqueue(cfg, t, id, notice, now).0 == irq
  {
  }

  lemma EventIsGone(cfg: Interrupts.Limits, id: string, notice: Interrupts.Notice, now: int, irq: Interrupts.Irq)
    requires Interrupts.Sensible(cfg) && notice.Notice? && irq == OneEvent(id, notice, now)
    ensures Interrupts.Listed(irq)
    ensures var (next, r) := Interrupts.ApplyPending(cfg, irq, Some(id), None, now);
            r == Err(Interrupts.BadBody) && id in next.sessions && next.sessions[id].pending == []
  {
  }
}
