/** What becomes of a turn that ended as a nap: no later call of the host admits its key, and none
    stores its text. */
module HostWaits {
  import opened Common
  import opened FeedbackLoop
  import opened LifecycleLog
  import LoopRuns
  import opened WorkingSets
  import opened Hosts
  import opened HostRuns
  import opened HostTheorems
  import opened StoredKeys
  import Objects
  import Dreamcatcher
  import Scheduler

  ghost predicate Waits(st: Loop, k: string) { Lookup(st.phase, k) == Some(Derivation) }

  function Answer(hc: HostConfig, db: Dreamcatcher.Db, k: string): Result<Option<Objects.Object>, Dreamcatcher.DbError> {
    Dreamcatcher.Get(hc.d, db, hc.branch, k)
  }

  /** No digest collided, neither in the store nor among the keys of the host. */
  ghost predicate Untroubled(hc: HostConfig, st: Loop, db: Dreamcatcher.Db) {
    db.heap.clean && KeysApart(hc.d, st.phase.Keys)
  }

  /** A step after which the key still waits, and the store still answers it as before. */
  ghost predicate Spares(hc: HostConfig, st: Loop, db: Dreamcatcher.Db, next: Loop, db': Dreamcatcher.Db, k: string) {
    && Waits(next, k)
    && (Untroubled(hc, next, db') ==> Untroubled(hc, st, db) && Answer(hc, db', k) == Answer(hc, db, k))
  }

  ghost predicate SparesHost(hc: HostConfig, h: Host, next: Host, k: string) {
    Spares(hc, h.loop, h.db, next.loop, next.db, k)
  }

  lemma SparesTwice(hc: HostConfig, a: Host, b: Host, c: Host, k: string)
    requires SparesHost(hc, a, b, k) && SparesHost(hc, b, c, k)
    ensures SparesHost(hc, a, c, k)
  {
  }

  lemma StoreIsSame(hc: HostConfig, st: Loop, next: Loop, db: Dreamcatcher.Db, k: string)
    requires Waits(next, k) && st.phase.Keys <= next.phase.Keys
    ensures Spares(hc, st, db, next, db, k)
  {
  }

  // ---- impressions ----------------------------------------------------------------------

  /** A write under another path leaves the answer alone. */
  lemma WriteSpares(hc: HostConfig, db: Dreamcatcher.Db, c: Dreamcatcher.Picture, input: Dreamcatcher.Input, now: string, k: string)
    requires hc.d.WellFormed() && Dreamcatcher.Depicts(hc.d, db, c) && Dreamcatcher.Remember(hc.d, db, input, now).0.heap.clean
    requires input.branch == hc.branch && hc.d.PathOf(hc.d.nfc(input.key)) != hc.d.PathOf(hc.d.nfc(k))
    ensures Answer(hc, Dreamcatcher.Remember(hc.d, db, input, now).0, k) == Answer(hc, db, k)
  {
    var db' := Dreamcatcher.Remember(hc.d, db, input, now).0;
    Dreamcatcher.RememberRefines(hc.d, db, c, input, now);
    Dreamcatcher.GetRefines(hc.d, db, c, hc.branch, k);
    Dreamcatcher.GetRefines(hc.d, db', Dreamcatcher.Recorded(hc.d, c, input, now), hc.branch, k);
    RecordedElsewhere(hc, c, input, now, k);
  }

  lemma RecordedElsewhere(hc: HostConfig, c: Dreamcatcher.Picture, input: Dreamcatcher.Input, now: string, k: string)
    requires hc.d.WellFormed() && hc.d.PathOf(hc.d.nfc(input.key)) != hc.d.PathOf(hc.d.nfc(k))
    ensures Dreamcatcher.Expected(hc.d, Dreamcatcher.Recorded(hc.d, c, input, now), hc.branch, k)
            == Dreamcatcher.Expected(hc.d, c, hc.branch, k)
  {
    if Dreamcatcher.Accepts(hc.d, c, input, now) { Dreamcatcher.BuiltRecordIsWellMade(hc.d, input, now); }
  }

  lemma AttendedSpares(hc: HostConfig, st: Loop, db: Dreamcatcher.Db, count: nat, seen: nat, actions: set<string>,
                       session: string, key: string, actor: string, now: string, k: string)
    requires Reasonable(hc) && Kept(hc, st, db, count, seen, actions) && !hc.loop.blank(session)
    requires Waits(st, k) && Lookup(st.phase, key) == Some(Attention)
    ensures var (next, db', _) := Impress(hc.loop, hc.d, st, db, session, key, actor, hc.branch, now);
            Spares(hc, st, db, next, db', k)
  {
    PartsOf(hc, st, db, count, seen, actions);
    PayloadKnown(hc, st, key);
    AttendedLeaves(hc, st, db, session, key, actor, now, k);
    var input := ImpressInput(st.payload[key], key, actor, hc.branch);
    WaitingIsSpared(hc, st, db, count, input, now, key, k);
  }

  /** What an impression does to the store, and that it moves no key but its own. */
  lemma AttendedLeaves(hc: HostConfig, st: Loop, db: Dreamcatcher.Db, session: string, key: string, actor: string, now: string, k: string)
    requires st.seized == {} && !hc.loop.blank(session) && key in st.payload && Lookup(st.phase, key) == Some(Attention) && Waits(st, k)
    ensures var (next, db', _) := Impress(hc.loop, hc.d, st, db, session, key, actor, hc.branch, now);
            && Waits(next, k) && next.phase.Keys == st.phase.Keys
            && db' == Dreamcatcher.Remember(hc.d, db, ImpressInput(st.payload[key], key, actor, hc.branch), now).0
  {
    ImpressOutcome(hc, st, db, session, key, actor, now);
  }

  lemma WaitingIsSpared(hc: HostConfig, st: Loop, db: Dreamcatcher.Db, count: nat, input: Dreamcatcher.Input, now: string, key: string, k: string)
    requires Reasonable(hc) && Safe(hc, st, db) && Placed(hc, st.phase, count) && key in st.phase && k in st.phase && key != k
    requires input.branch == hc.branch && input.key == key
    ensures var db' := Dreamcatcher.Remember(hc.d, db, input, now).0;
            db'.heap.clean && KeysApart(hc.d, st.phase.Keys) ==> db.heap.clean && Answer(hc, db', k) == Answer(hc, db, k)
  {
    var db' := Dreamcatcher.Remember(hc.d, db, input, now).0;
    if db'.heap.clean && KeysApart(hc.d, st.phase.Keys) {
      CleanBefore(hc, db, input, now);
      PathsDiffer(hc, st.phase.Keys, count, key, k);
      var c :| Dreamcatcher.Depicts(hc.d, db, c) && AllStored(hc, st, c);
      WriteSpares(hc, db, c, input, now, k);
    }
  }

  lemma ImpressSpares(hc: HostConfig, st: Loop, db: Dreamcatcher.Db, count: nat, seen: nat, actions: set<string>,
                      session: string, key: string, actor: string, now: string, k: string)
    requires Reasonable(hc) && Kept(hc, st, db, count, seen, actions) && !hc.loop.blank(session) && Waits(st, k)
    ensures var (next, db', _) := Impress(hc.loop, hc.d, st, db, session, key, actor, hc.branch, now);
            Spares(hc, st, db, next, db', k)
  {
    if Lookup(st.phase, key) == Some(Attention) {
      AttendedSpares(hc, st, db, count, seen, actions, session, key, actor, now, k);
    } else {
      PartsOf(hc, st, db, count, seen, actions);
      ImpressRefused(hc, st, db, session, key, actor, now);
    }
  }

  lemma {:induction false} ImpressAllSpares(hc: HostConfig, st: Loop, db: Dreamcatcher.Db, count: nat, seen: nat, actions: set<string>,
                                            session: string, keys: seq<string>, now: string, k: string)
    requires Reasonable(hc) && Kept(hc, st, db, count, seen, actions) && !hc.loop.blank(session)
    requires AllOwned(st, session, keys) && Waits(st, k)
    ensures var (next, db', _) := ImpressAll(hc, st, db, session, keys, now); Spares(hc, st, db, next, db', k)
    decreases |keys|
  {
    if keys != [] {
      ImpressOne(hc, st, db, count, seen, actions, session, keys[0], hc.actor, now);
      ImpressSpares(hc, st, db, count, seen, actions, session, keys[0], hc.actor, now, k);
      var (next, db', r) := Impress(hc.loop, hc.d, st, db, session, keys[0], hc.actor, hc.branch, now);
      if r.Ok? {
        OwnedLater(st, next, session, keys);
        ImpressAllSpares(hc, next, db', count, seen, actions, session, keys[1..], now, k);
      }
    }
  }

  lemma DreamSpares(hc: HostConfig, h: Host, seen: nat, actions: set<string>, session: string, state: Option<(int, bool)>,
                    t: Times, now: string, k: string)
    requires Reasonable(hc) && Scheduler.Housed(h.sched.reg) && Kept(hc, h.loop, h.db, h.count, seen, actions) && Waits(h.loop, k)
    ensures SparesHost(hc, h, Dream(hc, h, session, state, t, now).0, k)
  {
    var keys := AttentionKeys(h.loop, WorkingOf(h.loop, session));
    DreamCases(hc, h, session, state, t, now);
    if hc.loop.blank(session) {
      BlankImpresses(hc, h.loop, h.db, session, keys, now);
    } else {
      PartsOf(hc, h.loop, h.db, h.count, seen, actions);
      AttentionKeysOwned(h.loop, session);
      ImpressAllSpares(hc, h.loop, h.db, h.count, seen, actions, session, keys, now, k);
    }
  }

  // ---- turns ------------------------------------------------------------------------------

  /** What the steps of a turn need to know of the host. */
  ghost predicate Ready(hc: HostConfig, h: Host, turn: Turn, actions: set<string>) {
    && Reasonable(hc) && Scheduler.Housed(h.sched.reg) && !hc.loop.blank(turn.session) && h.count > 0
    && Kept(hc, h.loop, h.db, h.count, h.count - 1, actions) && turn.action in actions && Apart(hc, actions, h.count)
  }

  lemma ShowSpares(hc: HostConfig, h: Host, turn: Turn, key: string, clock: Clock, dreamed: bool, status: Status, actions: set<string>, k: string)
    requires Ready(hc, h, turn, actions) && Waits(h.loop, k)
    ensures SparesHost(hc, h, ShowAction(hc, h, turn, key, clock, dreamed, status).0, k)
  {
    ObserveKept(hc, h.loop, h.db, h.count - 1, h.count, actions, turn.session, turn.action, ActorOf(hc, turn));
  }

  lemma FinishSpares(hc: HostConfig, h: Host, turn: Turn, key: string, clock: Clock, dreamed: bool, actions: set<string>, k: string)
    requires Ready(hc, h, turn, actions) && Waits(h.loop, k)
    requires Lookup(h.loop.phase, key) == Some(Attention) && Owned(h.loop, turn.session, key)
    ensures SparesHost(hc, h, FinishTurn(hc, h, turn, key, clock, dreamed).0, k)
  {
    if Persists(hc, turn) {
      ImpressKept(hc, h.loop, h.db, h.count, h.count - 1, actions, turn.session, key, ActorOf(hc, turn), clock.now);
      ImpressSpares(hc, h.loop, h.db, h.count, h.count - 1, actions, turn.session, key, ActorOf(hc, turn), clock.now, k);
      var (loop, db, r) := Impress(hc.loop, hc.d, h.loop, h.db, turn.session, key, ActorOf(hc, turn), hc.branch, clock.now);
      var next := h.(loop := loop, db := db);
      if r.Ok? {
        ShowSpares(hc, next, turn, key, clock, dreamed, StatusIntegrated, actions, k);
        SparesTwice(hc, h, next, ShowAction(hc, next, turn, key, clock, dreamed, StatusIntegrated).0, k);
      }
    } else {
      ShowSpares(hc, h, turn, key, clock, dreamed, StatusAdmitted, actions, k);
    }
  }

  lemma AdmitLeaves(hc: HostConfig, st: Loop, session: string, key: string, actor: string, k: string)
    requires LoopRuns.Inv(hc.loop, st) && st.seized == {} && !hc.loop.blank(session)
    requires Lookup(st.phase, key) == Some(Derivation) && Waits(st, k) && k != key
    ensures Waits(Admit(hc.loop, st, session, key, actor).0, k) && Admit(hc.loop, st, session, key, actor).0.phase.Keys == st.phase.Keys
  {
    AdmitOutcome(hc, st, session, key, actor);
  }

  lemma AdmitStaysReady(hc: HostConfig, h: Host, turn: Turn, key: string, actions: set<string>)
    requires Ready(hc, h, turn, actions) && Lookup(h.loop.phase, key) == Some(Derivation) && Owned(h.loop, turn.session, key)
    ensures var (loop, r) := Admit(hc.loop, h.loop, turn.session, key, ActorOf(hc, turn));
            && r.Ok? && Ready(hc, h.(loop := loop), turn, actions)
            && Lookup(loop.phase, key) == Some(if r.value == Admitted then Attention else Derivation) && Owned(loop, turn.session, key)
  {
    AdmitKept(hc, h.loop, h.db, h.count, h.count - 1, actions, turn.session, key, ActorOf(hc, turn));
  }

  /** An admission of another key. */
  lemma AdmitSpares(hc: HostConfig, h: Host, turn: Turn, key: string, actions: set<string>, k: string)
    requires Ready(hc, h, turn, actions) && Waits(h.loop, k) && k != key
    requires Lookup(h.loop.phase, key) == Some(Derivation) && Owned(h.loop, turn.session, key)
    ensures var (loop, r) := Admit(hc.loop, h.loop, turn.session, key, ActorOf(hc, turn));
            && r.Ok? && SparesHost(hc, h, h.(loop := loop), k) && Ready(hc, h.(loop := loop), turn, actions)
            && Lookup(loop.phase, key) == Some(if r.value == Admitted then Attention else Derivation) && Owned(loop, turn.session, key)
  {
    PartsOf(hc, h.loop, h.db, h.count, h.count - 1, actions);
    AdmitStaysReady(hc, h, turn, key, actions);
    AdmitLeaves(hc, h.loop, turn.session, key, ActorOf(hc, turn), k);
    StoreIsSame(hc, h.loop, Admit(hc.loop, h.loop, turn.session, key, ActorOf(hc, turn)).0, h.db, k);
  }

  lemma AgainSpares(hc: HostConfig, h: Host, turn: Turn, key: string, clock: Clock, dreamt: DreamReply, actions: set<string>, k: string)
    requires Ready(hc, h, turn, actions) && Waits(h.loop, k) && k != key
    requires Lookup(h.loop.phase, key) == Some(Derivation) && Owned(h.loop, turn.session, key)
    ensures SparesHost(hc, h, AdmitAgain(hc, h, turn, key, clock, dreamt).0, k)
  {
    AdmitSpares(hc, h, turn, key, actions, k);
    var (loop, r) := Admit(hc.loop, h.loop, turn.session, key, ActorOf(hc, turn));
    var next := h.(loop := loop);
    if r.value == Admitted {
      FinishSpares(hc, next, turn, key, clock, dreamt.Dreamed?, actions, k);
      SparesTwice(hc, h, next, FinishTurn(hc, next, turn, key, clock, dreamt.Dreamed?).0, k);
    }
  }

  lemma NapSpares(hc: HostConfig, h: Host, turn: Turn, key: string, clock: Clock, actions: set<string>, k: string)
    requires Ready(hc, h, turn, actions) && Waits(h.loop, k) && k != key && Waits(h.loop, key) && Owned(h.loop, turn.session, key)
    ensures SparesHost(hc, h, AfterNap(hc, h, turn, key, clock).0, k)
  {
    DreamStaysReady(hc, h, turn, key, clock, actions);
    OwnDreamSpares(hc, h, turn, clock, actions, k);
    var dream := Dream(hc, h, turn.session, Some((0, false)), clock.first, clock.now);
    DreamtSpares(hc, h, dream.0, dream.1, turn, key, clock, actions, k);
  }

  /** The dream in the middle of a turn. */
  lemma OwnDreamSpares(hc: HostConfig, h: Host, turn: Turn, clock: Clock, actions: set<string>, k: string)
    requires Ready(hc, h, turn, actions) && Waits(h.loop, k)
    ensures SparesHost(hc, h, Dream(hc, h, turn.session, Some((0, false)), clock.first, clock.now).0, k)
  {
    DreamSpares(hc, h, h.count - 1, actions, turn.session, Some((0, false)), clock.first, clock.now, k);
  }

  lemma DreamStaysReady(hc: HostConfig, h: Host, turn: Turn, key: string, clock: Clock, actions: set<string>)
    requires Ready(hc, h, turn, actions) && Waits(h.loop, key) && Owned(h.loop, turn.session, key)
    ensures var dreamer := Dream(hc, h, turn.session, Some((0, false)), clock.first, clock.now).0;
            Ready(hc, dreamer, turn, actions) && Waits(dreamer.loop, key) && Owned(dreamer.loop, turn.session, key)
  {
    NapDreams(hc, h, turn, key, clock, actions);
  }

  lemma DreamtSpares(hc: HostConfig, h: Host, dreamer: Host, dreamt: Result<DreamReply, HostError>, turn: Turn, key: string,
                     clock: Clock, actions: set<string>, k: string)
    requires Ready(hc, dreamer, turn, actions) && Waits(dreamer.loop, key) && Owned(dreamer.loop, turn.session, key)
    requires SparesHost(hc, h, dreamer, k) && k != key
    ensures SparesHost(hc, h, if dreamt.Err? then dreamer else AdmitAgain(hc, dreamer, turn, key, clock, dreamt.value).0, k)
  {
    if dreamt.Ok? {
      AgainSpares(hc, dreamer, turn, key, clock, dreamt.value, actions, k);
      SparesTwice(hc, h, dreamer, AdmitAgain(hc, dreamer, turn, key, clock, dreamt.value).0, k);
    }
  }

  lemma AdmitTurnSpares(hc: HostConfig, h: Host, turn: Turn, key: string, clock: Clock, actions: set<string>, k: string)
    requires Ready(hc, h, turn, actions) && Waits(h.loop, k) && k != key
    requires Lookup(h.loop.phase, key) == Some(Derivation) && Owned(h.loop, turn.session, key)
    ensures SparesHost(hc, h, AdmitTurn(hc, h, turn, key, clock).0, k)
  {
    AdmitSpares(hc, h, turn, key, actions, k);
    var (loop, r) := Admit(hc.loop, h.loop, turn.session, key, ActorOf(hc, turn));
    var next := h.(loop := loop);
    if r.value == Admitted {
      FinishSpares(hc, next, turn, key, clock, false, actions, k);
      SparesTwice(hc, h, next, FinishTurn(hc, next, turn, key, clock, false).0, k);
    } else {
      NapSpares(hc, next, turn, key, clock, actions, k);
      SparesTwice(hc, h, next, AfterNap(hc, next, turn, key, clock).0, k);
    }
  }

  lemma ExpressedIsReady(hc: HostConfig, h: Host, turn: Turn, key: string, clock: Clock, actions: set<string>)
    requires Reasonable(hc) && Scheduler.Housed(h.sched.reg) && Kept(hc, h.loop, h.db, h.count, h.count, actions)
    requires turn.action in actions && Apart(hc, actions, h.count + 1) && !hc.loop.blank(turn.session)
    requires key == TurnKey(hc, turn.session, h.count + 1, turn.text, turn.action)
    ensures var next := AfterExpress(hc, h, turn, key);
            && Ready(hc, next, turn, actions) && Waits(next.loop, key) && Owned(next.loop, turn.session, key)
            && key !in h.loop.phase && ObserveTurn(hc, h, turn, clock) == AdmitTurn(hc, next, turn, key, clock)
  {
    TurnExpresses(hc, h, turn, key, actions);
    TurnUnfolds(hc, h, turn, key, clock);
    var next := AfterExpress(hc, h, turn, key);
    IsReady(hc, next, h, turn, actions);
  }

  lemma IsReady(hc: HostConfig, next: Host, h: Host, turn: Turn, actions: set<string>)
    requires Reasonable(hc) && Scheduler.Housed(h.sched.reg) && next.sched == h.sched && !hc.loop.blank(turn.session)
    requires next.count == h.count + 1 && Kept(hc, next.loop, next.db, next.count, h.count, actions)
    requires turn.action in actions && Apart(hc, actions, h.count + 1)
    ensures Ready(hc, next, turn, actions)
  {
  }

  lemma TurnSpares(hc: HostConfig, h: Host, turn: Turn, clock: Clock, actions: set<string>, k: string)
    requires Reasonable(hc) && Scheduler.Housed(h.sched.reg) && Kept(hc, h.loop, h.db, h.count, h.count, actions)
    requires turn.action in actions && Apart(hc, actions, h.count + 1) && Waits(h.loop, k)
    ensures SparesHost(hc, h, ObserveTurn(hc, h, turn, clock).0, k)
  {
    if !hc.loop.blank(turn.session) {
      var key := TurnKey(hc, turn.session, h.count + 1, turn.text, turn.action);
      ExpressedIsReady(hc, h, turn, key, clock, actions);
      var next := AfterExpress(hc, h, turn, key);
      ExpressSpares(hc, h, turn, key, next, k);
      AdmitTurnSpares(hc, next, turn, key, clock, actions, k);
      SparesTwice(hc, h, next, AdmitTurn(hc, next, turn, key, clock).0, k);
    }
  }

  lemma ExpressSpares(hc: HostConfig, h: Host, turn: Turn, key: string, next: Host, k: string)
    requires next == AfterExpress(hc, h, turn, key) && Waits(h.loop, k) && k != key
    ensures SparesHost(hc, h, next, k)
  {
  }

  /** A call leaves alone what still waits. */
  lemma CallSpares(hc: HostConfig, h: Host, call: Call, next: Host, actions: set<string>, k: string)
    requires Reasonable(hc) && Scheduler.Housed(h.sched.reg) && Kept(hc, h.loop, h.db, h.count, h.count, actions)
    requires Apart(hc, actions, h.count + 1) && (call.DoTurn? ==> call.turn.action in actions) && Waits(h.loop, k)
    requires Leads(hc, h, call, next)
    ensures SparesHost(hc, h, next, k)
  {
    assert Do(hc, h, call) == next;
    match call
    case DoTurn(turn, clock) => TurnSpares(hc, h, turn, clock, actions, k);
    case DoDream(session, state, times, now) => DreamSpares(hc, h, h.count, actions, session, state, times, now, k);
    case DoNote(_, _, _) =>
  }

  /** The call leads from one host to the other. */
  ghost predicate Leads(hc: HostConfig, before: Host, call: Call, after: Host)
    requires Scheduler.Housed(before.sched.reg)
  {
    forall c :: c == call ==> Do(hc, before, c) == after
  }

  // ---- runs -------------------------------------------------------------------------------

  /** A key that waits after some calls waits after all that follow, and the store answers it as it
      did then. */
  lemma {:induction false} WaitingKeysWait(hc: HostConfig, h: Host, calls: seq<Call>, i: nat, j: nat, k: string, actions: set<string>)
    requires Reasonable(hc) && Fresh(hc, h) && Apart(hc, actions, |calls|) && ActionsOf(calls) <= actions
    requires i <= j <= |calls| && Waits(Run(hc, h, calls[..i]).loop, k)
    ensures SparesHost(hc, Run(hc, h, calls[..i]), Run(hc, h, calls[..j]), k)
  {
    if i < j {
      WaitingKeysWait(hc, h, calls, i, j - 1, k, actions);
      NextCallSpares(hc, h, calls, j - 1, k, actions);
      SparesRuns(hc, h, calls[..i], calls[..j - 1], calls[..j], k);
    }
  }

  lemma SparesRuns(hc: HostConfig, h: Host, a: seq<Call>, b: seq<Call>, c: seq<Call>, k: string)
    requires Scheduler.Housed(h.sched.reg)
    requires SparesHost(hc, Run(hc, h, a), Run(hc, h, b), k) && SparesHost(hc, Run(hc, h, b), Run(hc, h, c), k)
    ensures SparesHost(hc, Run(hc, h, a), Run(hc, h, c), k)
  {
    SparesTwice(hc, Run(hc, h, a), Run(hc, h, b), Run(hc, h, c), k);
  }

  lemma NextCallSpares(hc: HostConfig, h: Host, calls: seq<Call>, i: nat, k: string, actions: set<string>)
    requires Reasonable(hc) && Fresh(hc, h) && Apart(hc, actions, |calls|) && ActionsOf(calls) <= actions
    requires i < |calls| && Waits(Run(hc, h, calls[..i]).loop, k)
    ensures SparesHost(hc, Run(hc, h, calls[..i]), Run(hc, h, calls[..i + 1]), k)
  {
    BeforeCall(hc, h, calls, i, actions);
    CallSpares(hc, Run(hc, h, calls[..i]), calls[i], Run(hc, h, calls[..i + 1]), actions, k);
  }

  /** What a run keeps up to one of its calls, and what that call does. */
  lemma BeforeCall(hc: HostConfig, h: Host, calls: seq<Call>, i: nat, actions: set<string>)
    requires Reasonable(hc) && Fresh(hc, h) && Apart(hc, actions, |calls|) && ActionsOf(calls) <= actions && i < |calls|
    ensures var before := Run(hc, h, calls[..i]);
            && Kept(hc, before.loop, before.db, before.count, before.count, actions) && Apart(hc, actions, before.count + 1)
            && (calls[i].DoTurn? ==> calls[i].turn.action in actions)
            && Leads(hc, before, calls[i], Run(hc, h, calls[..i + 1]))
  {
    PrefixActions(calls, i);
    RunKept(hc, h, calls[..i], actions, |calls|);
    ApartSooner(hc, actions, Run(hc, h, calls[..i]).count + 1, |calls|);
    assert calls[i].DoTurn? ==> calls[i].turn.action in ActionsOf(calls);
    assert calls[..i + 1][..i] == calls[..i];
  }

  lemma PrefixActions(calls: seq<Call>, n: nat)
    requires n <= |calls|
    ensures ActionsOf(calls[..n]) <= ActionsOf(calls)
  {
    forall a | a in ActionsOf(calls[..n]) ensures a in ActionsOf(calls) {
      var i :| 0 <= i < n && calls[..n][i].DoTurn? && calls[..n][i].turn.action == a;
      assert calls[i].DoTurn? && calls[i].turn.action == a;
    }
  }

  /** A turn that naps leaves the store's answer for its key alone. */
  lemma NappingSpares(hc: HostConfig, h: Host, turn: Turn, clock: Clock, actions: set<string>)
    requires Reasonable(hc) && Scheduler.Housed(h.sched.reg) && Kept(hc, h.loop, h.db, h.count, h.count, actions)
    requires turn.action in actions && Apart(hc, actions, h.count + 1)
    requires ObserveTurn(hc, h, turn, clock).1.Ok? && ObserveTurn(hc, h, turn, clock).1.value.status == StatusNap
    ensures SparesHost(hc, h, ObserveTurn(hc, h, turn, clock).0, ObserveTurn(hc, h, turn, clock).1.value.key)
  {
    var key := TurnKey(hc, turn.session, h.count + 1, turn.text, turn.action);
    ExpressedIsReady(hc, h, turn, key, clock, actions);
    TurnIsKept(hc, h, turn, clock, actions);
    var next := AfterExpress(hc, h, turn, key);
    OwnNapSpares(hc, next, turn, key, clock, actions);
    BeforeExpression(hc, h, turn, key, next, AdmitTurn(hc, next, turn, key, clock).0);
  }

  lemma BeforeExpression(hc: HostConfig, h: Host, turn: Turn, key: string, next: Host, last: Host)
    requires next == AfterExpress(hc, h, turn, key) && key !in h.loop.phase && SparesHost(hc, next, last, key)
    ensures SparesHost(hc, h, last, key)
  {
  }

  lemma OwnNapSpares(hc: HostConfig, h: Host, turn: Turn, key: string, clock: Clock, actions: set<string>)
    requires Ready(hc, h, turn, actions) && Waits(h.loop, key) && Owned(h.loop, turn.session, key)
    requires AdmitTurn(hc, h, turn, key, clock).1.Ok? && AdmitTurn(hc, h, turn, key, clock).1.value.status == StatusNap
    ensures SparesHost(hc, h, AdmitTurn(hc, h, turn, key, clock).0, key)
  {
    AdmitStaysReady(hc, h, turn, key, actions);
    var (loop, r) := Admit(hc.loop, h.loop, turn.session, key, ActorOf(hc, turn));
    var next := h.(loop := loop);
    if r.value == Admitted {
      FinishIsNoNap(hc, next, turn, key, clock, false);
    } else {
      NappedSpares(hc, h, turn, key, actions);
      var (last, reply) := AdmitTurn(hc, h, turn, key, clock);
      SecondNapSpares(hc, next, turn, key, clock, actions, last, reply.value);
      SparesTwice(hc, h, next, AfterNap(hc, next, turn, key, clock).0, key);
    }
  }

  /** An admission that asks for a nap. */
  lemma NappedSpares(hc: HostConfig, h: Host, turn: Turn, key: string, actions: set<string>)
    requires Ready(hc, h, turn, actions) && Waits(h.loop, key)
    requires Admit(hc.loop, h.loop, turn.session, key, ActorOf(hc, turn)).1 == Ok(Napped)
    ensures SparesHost(hc, h, h.(loop := Admit(hc.loop, h.loop, turn.session, key, ActorOf(hc, turn)).0), key)
  {
    PartsOf(hc, h.loop, h.db, h.count, h.count - 1, actions);
    AdmitOutcome(hc, h.loop, turn.session, key, ActorOf(hc, turn));
    StoreIsSame(hc, h.loop, Admit(hc.loop, h.loop, turn.session, key, ActorOf(hc, turn)).0, h.db, key);
  }

  lemma SecondNapSpares(hc: HostConfig, h: Host, turn: Turn, key: string, clock: Clock, actions: set<string>, last: Host, reply: TurnReply)
    requires Ready(hc, h, turn, actions) && Waits(h.loop, key) && Owned(h.loop, turn.session, key)
    requires AfterNap(hc, h, turn, key, clock) == (last, Ok(reply)) && reply.status == StatusNap
    ensures SparesHost(hc, h, last, key)
  {
    DreamStaysReady(hc, h, turn, key, clock, actions);
    OwnDreamSpares(hc, h, turn, clock, actions, key);
    var dream := Dream(hc, h, turn.session, Some((0, false)), clock.first, clock.now);
    NapUnfolds(hc, h, dream, turn, key, clock, last, reply);
    LastNapSpares(hc, dream.0, turn, key, clock, dream.1.value, actions, last, reply);
    SparesTwice(hc, h, dream.0, last, key);
  }

  lemma NapUnfolds(hc: HostConfig, h: Host, dream: (Host, Result<DreamReply, HostError>), turn: Turn, key: string, clock: Clock,
                   last: Host, reply: TurnReply)
    requires Scheduler.Housed(h.sched.reg) && AfterNap(hc, h, turn, key, clock) == (last, Ok(reply))
    requires dream == Dream(hc, h, turn.session, Some((0, false)), clock.first, clock.now)
    ensures dream.1.Ok? && AdmitAgain(hc, dream.0, turn, key, clock, dream.1.value) == (last, Ok(reply))
  {
  }

  lemma LastNapSpares(hc: HostConfig, h: Host, turn: Turn, key: string, clock: Clock, dreamt: DreamReply, actions: set<string>,
                      last: Host, reply: TurnReply)
    requires Ready(hc, h, turn, actions) && Waits(h.loop, key) && Owned(h.loop, turn.session, key)
    requires AdmitAgain(hc, h, turn, key, clock, dreamt) == (last, Ok(reply)) && reply.status == StatusNap
    ensures SparesHost(hc, h, last, key)
  {
    AdmitStaysReady(hc, h, turn, key, actions);
    var (loop, r) := Admit(hc.loop, h.loop, turn.session, key, ActorOf(hc, turn));
    if r.value == Admitted {
      FinishIsNoNap(hc, h.(loop := loop), turn, key, clock, dreamt.Dreamed?);
    } else {
      NappedSpares(hc, h, turn, key, actions);
    }
  }

  /** The other side of never losing a turn: the key of a turn that ended as a nap is in derivation
      after every later run of the host, it was never admitted, and unless a digest collided the
      store answers it just as it did before the turn. */
  lemma NappedTurnsAreNeverStored(hc: HostConfig, h: Host, calls: seq<Call>, i: nat)
    requires Reasonable(hc) && Fresh(hc, h) && Apart(hc, ActionsOf(calls), |calls|) && i < |calls| && calls[i].DoTurn?
    requires var r := ObserveTurn(hc, Run(hc, h, calls[..i]), calls[i].turn, calls[i].clock).1; r.Ok? && r.value.status == StatusNap
    ensures var before, last := Run(hc, h, calls[..i]), Run(hc, h, calls);
            var key := ObserveTurn(hc, before, calls[i].turn, calls[i].clock).1.value.key;
            && Waits(last.loop, key) && !WasAdmitted(last.loop.log, key)
            && (last.db.heap.clean && KeysApart(hc.d, last.loop.phase.Keys) ==> Answer(hc, last.db, key) == Answer(hc, before.db, key))
  {
    var before := Run(hc, h, calls[..i]);
    var key := ObserveTurn(hc, before, calls[i].turn, calls[i].clock).1.value.key;
    NapAt(hc, h, calls, i, before, key, ActionsOf(calls));
    WaitingKeysWait(hc, h, calls, i + 1, |calls|, key, ActionsOf(calls));
    SparesRuns(hc, h, calls[..i], calls[..i + 1], calls[..|calls|], key);
    assert calls[..|calls|] == calls;
    NeverAdmitted(hc, h, calls, key);
  }

  /** The call is a turn that ends as a nap. */
  ghost predicate Naps(hc: HostConfig, h: Host, call: Call, key: string)
    requires Scheduler.Housed(h.sched.reg)
  {
    forall turn, clock :: call == DoTurn(turn, clock) ==> ObserveTurn(hc, h, turn, clock).1 == Ok(TurnReply(StatusNap, key))
  }

  lemma NapAt(hc: HostConfig, h: Host, calls: seq<Call>, i: nat, before: Host, key: string, actions: set<string>)
    requires Reasonable(hc) && Fresh(hc, h) && Apart(hc, actions, |calls|) && ActionsOf(calls) <= actions && i < |calls|
    requires before == Run(hc, h, calls[..i]) && calls[i].DoTurn? && Naps(hc, before, calls[i], key)
    ensures SparesHost(hc, before, Run(hc, h, calls[..i + 1]), key)
  {
    BeforeCall(hc, h, calls, i, actions);
    NapCall(hc, before, Run(hc, h, calls[..i + 1]), calls[i], actions, key);
  }

  lemma NapCall(hc: HostConfig, before: Host, after: Host, call: Call, actions: set<string>, key: string)
    requires Reasonable(hc) && Scheduler.Housed(before.sched.reg) && Kept(hc, before.loop, before.db, before.count, before.count, actions)
    requires call.DoTurn? && call.turn.action in actions && Apart(hc, actions, before.count + 1) && Leads(hc, before, call, after)
    requires Naps(hc, before, call, key)
    ensures SparesHost(hc, before, after, key)
  {
    assert ObserveTurn(hc, before, call.turn, call.clock).1 == Ok(TurnReply(StatusNap, key));
    assert Do(hc, before, call) == after;
    NappingSpares(hc, before, call.turn, call.clock, actions);
  }

  lemma NeverAdmitted(hc: HostConfig, h: Host, calls: seq<Call>, key: string)
    requires Reasonable(hc) && Fresh(hc, h) && Apart(hc, ActionsOf(calls), |calls|) && Waits(Run(hc, h, calls).loop, key)
    ensures !WasAdmitted(Run(hc, h, calls).loop.log, key)
  {
    var last := Run(hc, h, calls);
    RunKept(hc, h, calls, ActionsOf(calls), |calls|);
    PartsOf(hc, last.loop, last.db, last.count, last.count, ActionsOf(calls));
    if WasAdmitted(last.loop.log, key) { AdmittedHasLeft(last.loop, key); }
  }
}
