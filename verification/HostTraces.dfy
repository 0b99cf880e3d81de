/** The host as a client of its loop: every run of a host is a run of the loop and the store, of calls
    that the host's own calls ask for. What the loop promises of its runs holds of hosts, too. */
module HostTraces {
  import opened Common
  import opened Decimal
  import opened FeedbackLoop
  import opened Hosts
  import HostRuns
  import HostTheorems
  import LoopRuns
  import LoopLaws
  import Detector
  import Objects
  import Dreamcatcher
  import Scheduler
  import IdleScheduler

  // ---- what a call asks for ----------------------------------------------------------------

  /** A turn speaks for its own actor, or else for the host's. */
  function Speaker(hc: HostConfig, turn: Turn): string {
    match turn.actor
    case Some(actor) => actor
    case None => hc.actor
  }

  /** A turn is written through if it says so, or if it says nothing and the host does. */
  ghost predicate WritesThrough(hc: HostConfig, turn: Turn) {
    turn.persist == Some(true) || (turn.persist == None && hc.writeThrough)
  }

  /** The key of the n-th turn. */
  function NameOfTurn(hc: HostConfig, turn: Turn, n: nat): string {
    "turn:" + turn.session + ":" + Dec(n) + ":" + hc.turnDigest(turn.text, turn.action)
  }

  /** What a call of the host may ask of the loop: a turn expresses, admits and perhaps impresses its own
      key and shows its action, all for its speaker; dreams impress keys for the host's actor. */
  ghost predicate Asks(hc: HostConfig, n: nat, call: Call, op: LoopRuns.Op) {
    match call
    case DoTurn(turn, clock) =>
      var key, speaker := NameOfTurn(hc, turn, n), Speaker(hc, turn);
      || op == LoopRuns.DoExpress(turn.session, key, hc.turnValue(turn.text, turn.action), speaker, turn.tags, 1.0, 1.0)
      || op == LoopRuns.DoAdmit(turn.session, key, speaker)
      || (op == LoopRuns.DoImpress(turn.session, key, speaker, hc.branch, clock.now) && WritesThrough(hc, turn))
      || op == LoopRuns.DoObserve(turn.session, hc.actionHash(turn.action, n), speaker)
      || Dreams(hc, turn.session, clock.now, op)
    case DoDream(session, state, times, now) => Dreams(hc, session, now, op)
    case DoNote(_, _, _) => false
  }

  ghost predicate Dreams(hc: HostConfig, session: string, now: string, op: LoopRuns.Op) {
    op.DoImpress? && op == LoopRuns.DoImpress(session, op.key, hc.actor, hc.branch, now)
  }

  // ---- following the loop --------------------------------------------------------------------

  function Follow(hc: HostConfig, w: LoopRuns.World, ops: seq<LoopRuns.Op>): LoopRuns.World {
    if ops == [] then w else LoopRuns.Step(hc.loop, hc.d, Follow(hc, w, ops[..|ops| - 1]), ops[|ops| - 1])
  }

  function WorldOf(h: Host): LoopRuns.World { LoopRuns.World(h.loop, h.db) }

  lemma {:induction false} FollowOn(hc: HostConfig, w: LoopRuns.World, a: seq<LoopRuns.Op>, b: seq<LoopRuns.Op>)
    ensures Follow(hc, w, a + b) == Follow(hc, Follow(hc, w, a), b)
  {
    if b == [] { assert a + b == a; }
    else {
      assert (a + b)[..|a + b| - 1] == a + b[..|b| - 1];
      FollowOn(hc, w, a, b[..|b| - 1]);
    }
  }

  lemma FollowOne(hc: HostConfig, w: LoopRuns.World, op: LoopRuns.Op)
    ensures Follow(hc, w, [op]) == LoopRuns.Step(hc.loop, hc.d, w, op)
  {
    assert [op][..0] == [];
    assert Follow(hc, w, []) == w;
  }

  /** The calls lead from the one state of loop and store to the other, and the host's call asks for each. */
  ghost predicate Traced(hc: HostConfig, n: nat, call: Call, w: LoopRuns.World, next: LoopRuns.World, ops: seq<LoopRuns.Op>) {
    Follow(hc, w, ops) == next && forall op :: op in ops ==> Asks(hc, n, call, op)
  }

  lemma TracedOn(hc: HostConfig, n: nat, call: Call, u: LoopRuns.World, v: LoopRuns.World, w: LoopRuns.World,
                 a: seq<LoopRuns.Op>, b: seq<LoopRuns.Op>)
    requires Traced(hc, n, call, u, v, a) && Traced(hc, n, call, v, w, b)
    ensures Traced(hc, n, call, u, w, a + b)
  {
    FollowOn(hc, u, a, b);
  }

  lemma TracedOne(hc: HostConfig, n: nat, call: Call, w: LoopRuns.World, next: LoopRuns.World, op: LoopRuns.Op)
    requires Asks(hc, n, call, op) && LoopRuns.Step(hc.loop, hc.d, w, op) == next
    ensures Traced(hc, n, call, w, next, [op])
  {
    FollowOne(hc, w, op);
  }

  // ---- dreams ----------------------------------------------------------------------------------

  /** The call dreams for the session. */
  ghost predicate MayDream(call: Call, session: string, now: string) {
    match call
    case DoTurn(turn, clock) => turn.session == session && clock.now == now
    case DoDream(s, _, _, t) => s == session && t == now
    case DoNote(_, _, _) => false
  }

  lemma {:induction false} ImpressAllIsTraced(hc: HostConfig, n: nat, call: Call, loop: Loop, db: Dreamcatcher.Db, session: string,
                                              keys: seq<string>, now: string) returns (ops: seq<LoopRuns.Op>)
    requires MayDream(call, session, now)
    ensures var (loop', db', _) := ImpressAll(hc, loop, db, session, keys, now);
            Traced(hc, n, call, LoopRuns.World(loop, db), LoopRuns.World(loop', db'), ops)
    decreases |keys|
  {
    ops := [];
    if keys != [] {
      var op := LoopRuns.DoImpress(session, keys[0], hc.actor, hc.branch, now);
      var (loop', db', r) := Impress(hc.loop, hc.d, loop, db, session, keys[0], hc.actor, hc.branch, now);
      TracedOne(hc, n, call, LoopRuns.World(loop, db), LoopRuns.World(loop', db'), op);
      ops := [op];
      if r.Ok? {
        var rest := ImpressAllIsTraced(hc, n, call, loop', db', session, keys[1..], now);
        var (last, db'', _) := ImpressAll(hc, loop', db', session, keys[1..], now);
        TracedOn(hc, n, call, LoopRuns.World(loop, db), LoopRuns.World(loop', db'), LoopRuns.World(last, db''), ops, rest);
        ops := ops + rest;
      }
    }
  }

  lemma DreamIsTraced(hc: HostConfig, n: nat, call: Call, h: Host, session: string, state: Option<(int, bool)>, t: Times, now: string)
    returns (ops: seq<LoopRuns.Op>)
    requires Scheduler.Housed(h.sched.reg) && MayDream(call, session, now)
    ensures Traced(hc, n, call, WorldOf(h), WorldOf(Dream(hc, h, session, state, t, now).0), ops)
    ensures Dream(hc, h, session, state, t, now).0.count == h.count
  {
    var next := Dream(hc, h, session, state, t, now).0;
    HostRuns.DreamCases(hc, h, session, state, t, now);
    ops := ImpressAllIsTraced(hc, n, call, h.loop, h.db, session, AttentionKeys(h.loop, WorkingOf(h.loop, session)), now);
    if WorldOf(next) == WorldOf(h) { ops := []; }
  }

  // ---- turns -----------------------------------------------------------------------------------

  lemma ShowIsTraced(hc: HostConfig, h: Host, turn: Turn, key: string, clock: Clock, dreamed: bool, status: Status) returns (ops: seq<LoopRuns.Op>)
    requires Scheduler.Housed(h.sched.reg)
    ensures var next := ShowAction(hc, h, turn, key, clock, dreamed, status).0;
            Traced(hc, h.count, DoTurn(turn, clock), WorldOf(h), WorldOf(next), ops) && next.count == h.count
  {
    var call, op := DoTurn(turn, clock), LoopRuns.DoObserve(turn.session, hc.actionHash(turn.action, h.count), Speaker(hc, turn));
    var (loop, r) := ObserveAction(hc.loop, h.loop, turn.session, hc.actionHash(turn.action, h.count), ActorOf(hc, turn));
    var next := h.(loop := loop);
    TracedOne(hc, h.count, call, WorldOf(h), WorldOf(next), op);
    ops := [op];
    if r.Ok? && r.value == Some(Detector.Nap) && !dreamed {
      var more := DreamIsTraced(hc, h.count, call, next, turn.session, Some((0, false)), clock.second, clock.now);
      TracedOn(hc, h.count, call, WorldOf(h), WorldOf(next), WorldOf(Dream(hc, next, turn.session, Some((0, false)), clock.second, clock.now).0), ops, more);
      ops := ops + more;
    }
  }

  lemma FinishIsTraced(hc: HostConfig, h: Host, turn: Turn, key: string, clock: Clock, dreamed: bool) returns (ops: seq<LoopRuns.Op>)
    requires Scheduler.Housed(h.sched.reg) && key == NameOfTurn(hc, turn, h.count)
    ensures var next := FinishTurn(hc, h, turn, key, clock, dreamed).0;
            Traced(hc, h.count, DoTurn(turn, clock), WorldOf(h), WorldOf(next), ops) && next.count == h.count
  {
    var call := DoTurn(turn, clock);
    if Persists(hc, turn) {
      var op := LoopRuns.DoImpress(turn.session, key, Speaker(hc, turn), hc.branch, clock.now);
      var (loop, db, r) := Impress(hc.loop, hc.d, h.loop, h.db, turn.session, key, ActorOf(hc, turn), hc.branch, clock.now);
      var next := h.(loop := loop, db := db);
      TracedOne(hc, h.count, call, WorldOf(h), WorldOf(next), op);
      ops := [op];
      if r.Ok? {
        var more := ShowIsTraced(hc, next, turn, key, clock, dreamed, StatusIntegrated);
        TracedOn(hc, h.count, call, WorldOf(h), WorldOf(next), WorldOf(ShowAction(hc, next, turn, key, clock, dreamed, StatusIntegrated).0), ops, more);
        ops := ops + more;
      }
    } else {
      ops := ShowIsTraced(hc, h, turn, key, clock, dreamed, StatusAdmitted);
    }
  }

  lemma AgainIsTraced(hc: HostConfig, h: Host, turn: Turn, key: string, clock: Clock, dreamt: DreamReply) returns (ops: seq<LoopRuns.Op>)
    requires Scheduler.Housed(h.sched.reg) && key == NameOfTurn(hc, turn, h.count)
    ensures var next := AdmitAgain(hc, h, turn, key, clock, dreamt).0;
            Traced(hc, h.count, DoTurn(turn, clock), WorldOf(h), WorldOf(next), ops) && next.count == h.count
  {
    var call, op := DoTurn(turn, clock), LoopRuns.DoAdmit(turn.session, key, Speaker(hc, turn));
    var (loop, r) := Admit(hc.loop, h.loop, turn.session, key, ActorOf(hc, turn));
    var next := h.(loop := loop);
    TracedOne(hc, h.count, call, WorldOf(h), WorldOf(next), op);
    ops := [op];
    if r == Ok(Admitted) {
      var more := FinishIsTraced(hc, next, turn, key, clock, dreamt.Dreamed?);
      TracedOn(hc, h.count, call, WorldOf(h), WorldOf(next), WorldOf(FinishTurn(hc, next, turn, key, clock, dreamt.Dreamed?).0), ops, more);
      ops := ops + more;
    }
  }

  lemma NapIsTraced(hc: HostConfig, h: Host, turn: Turn, key: string, clock: Clock) returns (ops: seq<LoopRuns.Op>)
    requires Scheduler.Housed(h.sched.reg) && key == NameOfTurn(hc, turn, h.count)
    ensures var next := HostRuns.AfterNap(hc, h, turn, key, clock).0;
            Traced(hc, h.count, DoTurn(turn, clock), WorldOf(h), WorldOf(next), ops) && next.count == h.count
  {
    var call := DoTurn(turn, clock);
    var (dreamer, dreamt) := Dream(hc, h, turn.session, Some((0, false)), clock.first, clock.now);
    ops := DreamIsTraced(hc, h.count, call, h, turn.session, Some((0, false)), clock.first, clock.now);
    if dreamt.Ok? {
      var more := AgainIsTraced(hc, dreamer, turn, key, clock, dreamt.value);
      TracedOn(hc, h.count, call, WorldOf(h), WorldOf(dreamer), WorldOf(AdmitAgain(hc, dreamer, turn, key, clock, dreamt.value).0), ops, more);
      ops := ops + more;
    }
  }

  lemma AdmitIsTraced(hc: HostConfig, h: Host, turn: Turn, key: string, clock: Clock) returns (ops: seq<LoopRuns.Op>)
    requires Scheduler.Housed(h.sched.reg) && key == NameOfTurn(hc, turn, h.count)
    ensures var next := AdmitTurn(hc, h, turn, key, clock).0;
            Traced(hc, h.count, DoTurn(turn, clock), WorldOf(h), WorldOf(next), ops) && next.count == h.count
  {
    var call, op := DoTurn(turn, clock), LoopRuns.DoAdmit(turn.session, key, Speaker(hc, turn));
    var (loop, r) := Admit(hc.loop, h.loop, turn.session, key, ActorOf(hc, turn));
    var next := h.(loop := loop);
    TracedOne(hc, h.count, call, WorldOf(h), WorldOf(next), op);
    ops := [op];
    if r == Ok(Admitted) {
      var more := FinishIsTraced(hc, next, turn, key, clock, false);
      TracedOn(hc, h.count, call, WorldOf(h), WorldOf(next), WorldOf(FinishTurn(hc, next, turn, key, clock, false).0), ops, more);
      ops := ops + more;
    } else if r.Ok? {
      var more := NapIsTraced(hc, next, turn, key, clock);
      TracedOn(hc, h.count, call, WorldOf(h), WorldOf(next), WorldOf(HostRuns.AfterNap(hc, next, turn, key, clock).0), ops, more);
      ops := ops + more;
    }
  }

  /** A turn with a session begins by expressing what was said, under its own key, for its speaker. */
  lemma TurnIsTraced(hc: HostConfig, h: Host, turn: Turn, clock: Clock) returns (ops: seq<LoopRuns.Op>)
    requires Scheduler.Housed(h.sched.reg)
    ensures var next := ObserveTurn(hc, h, turn, clock).0;
            && Traced(hc, h.count + 1, DoTurn(turn, clock), WorldOf(h), WorldOf(next), ops)
            && next.count == h.count + if hc.loop.blank(turn.session) then 0 else 1
    ensures if hc.loop.blank(turn.session) then ops == []
            else ops != [] && ops[0] == LoopRuns.DoExpress(turn.session, NameOfTurn(hc, turn, h.count + 1), hc.turnValue(turn.text, turn.action),
                                                           Speaker(hc, turn), turn.tags, 1.0, 1.0)
  {
    ops := [];
    if !hc.loop.blank(turn.session) {
      var key := NameOfTurn(hc, turn, h.count + 1);
      var call := DoTurn(turn, clock);
      var op := LoopRuns.DoExpress(turn.session, key, hc.turnValue(turn.text, turn.action), Speaker(hc, turn), turn.tags, 1.0, 1.0);
      var (loop, r) := Express(hc.loop, h.loop, turn.session, key, hc.turnValue(turn.text, turn.action), ActorOf(hc, turn), turn.tags, 1.0, 1.0);
      var next := h.(count := h.count + 1, loop := loop);
      TracedOne(hc, h.count + 1, call, WorldOf(h), WorldOf(next), op);
      ops := [op];
      if r.Ok? {
        var more := AdmitIsTraced(hc, next, turn, key, clock);
        TracedOn(hc, h.count + 1, call, WorldOf(h), WorldOf(next), WorldOf(AdmitTurn(hc, next, turn, key, clock).0), ops, more);
        ops := ops + more;
      }
    }
  }

  /** Every call of the host is, on its loop and store, a list of calls of the loop that it asks for. */
  lemma CallIsTraced(hc: HostConfig, h: Host, call: Call) returns (ops: seq<LoopRuns.Op>)
    requires Scheduler.Housed(h.sched.reg)
    ensures Traced(hc, h.count + 1, call, WorldOf(h), WorldOf(Do(hc, h, call)), ops)
  {
    match call
    case DoTurn(turn, clock) => ops := TurnIsTraced(hc, h, turn, clock);
    case DoDream(session, state, times, now) => ops := DreamIsTraced(hc, h.count + 1, call, h, session, state, times, now);
    case DoNote(_, _, _) => ops := [];
  }

  // ---- runs --------------------------------------------------------------------------------------

  /** Some call of the run asks for it. */
  ghost predicate AskedIn(hc: HostConfig, h: Host, calls: seq<Call>, op: LoopRuns.Op)
    requires Scheduler.Housed(h.sched.reg)
  {
    exists i: nat :: AskedAt(hc, h, calls, i, op)
  }

  ghost predicate AskedAt(hc: HostConfig, h: Host, calls: seq<Call>, i: nat, op: LoopRuns.Op)
    requires Scheduler.Housed(h.sched.reg)
  {
    i < |calls| && Asks(hc, HostTheorems.Run(hc, h, calls[..i]).count + 1, calls[i], op)
  }

  /** Every run of a host is, on its loop and store, a run of the calls of the loop that its own calls
      ask for. */
  lemma {:induction false} RunIsTraced(hc: HostConfig, h: Host, calls: seq<Call>) returns (ops: seq<LoopRuns.Op>)
    requires Scheduler.Housed(h.sched.reg)
    ensures Follow(hc, WorldOf(h), ops) == WorldOf(HostTheorems.Run(hc, h, calls))
    ensures forall op :: op in ops ==> AskedIn(hc, h, calls, op)
    decreases |calls|
  {
    ops := [];
    if calls != [] {
      var n: nat := |calls| - 1;
      var before := HostTheorems.Run(hc, h, calls[..n]);
      var front := RunIsTraced(hc, h, calls[..n]);
      var last := CallIsTraced(hc, before, calls[n]);
      FollowOn(hc, WorldOf(h), front, last);
      ops := front + last;
      forall op | op in ops ensures AskedIn(hc, h, calls, op) {
        if op in last { assert AskedAt(hc, h, calls, n, op); } else { AskedSooner(hc, h, calls, n, op); }
      }
    }
  }

  lemma AskedSooner(hc: HostConfig, h: Host, calls: seq<Call>, n: nat, op: LoopRuns.Op)
    requires Scheduler.Housed(h.sched.reg) && n <= |calls| && AskedIn(hc, h, calls[..n], op)
    ensures AskedIn(hc, h, calls, op)
  {
    var i: nat :| AskedAt(hc, h, calls[..n], i, op);
    AskedAlike(hc, h, calls, calls[..n], i, op);
    assert AskedAt(hc, h, calls, i, op);
  }

  lemma AskedAlike(hc: HostConfig, h: Host, calls: seq<Call>, front: seq<Call>, i: nat, op: LoopRuns.Op)
    requires Scheduler.Housed(h.sched.reg) && front <= calls && AskedAt(hc, h, front, i, op)
    ensures AskedAt(hc, h, calls, i, op)
  {
    assert front[..i] == calls[..i];
  }

  lemma {:induction false} FollowIsRun(hc: HostConfig, db: Dreamcatcher.Db, ops: seq<LoopRuns.Op>)
    ensures Follow(hc, LoopRuns.World(EmptyLoop, db), ops) == LoopRuns.Run(hc.loop, hc.d, db, ops)
  {
    if ops != [] { FollowIsRun(hc, db, ops[..|ops| - 1]); }
  }

  /** A run of a fresh host is a run of the loop in the sense of its own theorems; it has no wraparound,
      so that these apply. */
  lemma HostRunIsLoopRun(hc: HostConfig, h: Host, calls: seq<Call>) returns (ops: seq<LoopRuns.Op>)
    requires Scheduler.Housed(h.sched.reg) && h.loop == EmptyLoop
    ensures LoopRuns.Run(hc.loop, hc.d, h.db, ops) == WorldOf(HostTheorems.Run(hc, h, calls))
    ensures LoopRuns.FreshRun(hc.loop, hc.d, h.db, ops)
    ensures forall op :: op in ops ==> AskedIn(hc, h, calls, op)
  {
    ops := RunIsTraced(hc, h, calls);
    FollowIsRun(hc, h.db, ops);
    forall i: nat | i < |ops| ensures !ops[i].DoWrap? {
      assert ops[i] in ops;
      var j: nat :| AskedAt(hc, h, calls, j, ops[i]);
    }
  }

  /** So every entry of a host's log tells of a call of the host that asked for it: of its session, and
      for the turn's speaker or, in a dream, for the host's actor. */
  lemma HostLogTellsCalls(hc: HostConfig, h: Host, calls: seq<Call>, i: nat) returns (op: LoopRuns.Op)
    requires Scheduler.Housed(h.sched.reg) && h.loop == EmptyLoop && i < |HostTheorems.Run(hc, h, calls).loop.log|
    ensures LoopLaws.Said(HostTheorems.Run(hc, h, calls).loop.log[i], op) && AskedIn(hc, h, calls, op)
  {
    var ops := HostRunIsLoopRun(hc, h, calls);
    var j := LoopLaws.LogTellsCalls(hc.loop, hc.d, h.db, ops, i);
    op := ops[j];
    assert op in ops;
  }

  // ---- what is answered ----------------------------------------------------------------------------

  /** The answer names the key; it says integrated exactly if the turn was written through, unless it
      napped. */
  ghost predicate Names(hc: HostConfig, turn: Turn, key: string, r: Result<TurnReply, HostError>) {
    r.Ok? ==> r.value.key == key && (r.value.status != StatusNap ==> (r.value.status == StatusIntegrated <==> WritesThrough(hc, turn)))
  }

  lemma ShowNames(hc: HostConfig, h: Host, turn: Turn, key: string, clock: Clock, dreamed: bool, status: Status)
    requires Scheduler.Housed(h.sched.reg)
    ensures var r := ShowAction(hc, h, turn, key, clock, dreamed, status).1; r.Ok? ==> r.value == TurnReply(status, key)
  {
  }

  lemma FinishNames(hc: HostConfig, h: Host, turn: Turn, key: string, clock: Clock, dreamed: bool)
    requires Scheduler.Housed(h.sched.reg)
    ensures Names(hc, turn, key, FinishTurn(hc, h, turn, key, clock, dreamed).1)
  {
    if Persists(hc, turn) {
      var (loop, db, r) := Impress(hc.loop, hc.d, h.loop, h.db, turn.session, key, ActorOf(hc, turn), hc.branch, clock.now);
      ShowNames(hc, h.(loop := loop, db := db), turn, key, clock, dreamed, StatusIntegrated);
    } else {
      ShowNames(hc, h, turn, key, clock, dreamed, StatusAdmitted);
    }
  }

  lemma AgainNames(hc: HostConfig, h: Host, turn: Turn, key: string, clock: Clock, dreamt: DreamReply)
    requires Scheduler.Housed(h.sched.reg)
    ensures Names(hc, turn, key, AdmitAgain(hc, h, turn, key, clock, dreamt).1)
  {
    FinishNames(hc, h.(loop := Admit(hc.loop, h.loop, turn.session, key, ActorOf(hc, turn)).0), turn, key, clock, dreamt.Dreamed?);
  }

  lemma AdmitNames(hc: HostConfig, h: Host, turn: Turn, key: string, clock: Clock)
    requires Scheduler.Housed(h.sched.reg)
    ensures Names(hc, turn, key, AdmitTurn(hc, h, turn, key, clock).1)
  {
    var (loop, r) := Admit(hc.loop, h.loop, turn.session, key, ActorOf(hc, turn));
    var next := h.(loop := loop);
    if r == Ok(Admitted) {
      FinishNames(hc, next, turn, key, clock, false);
    } else if r.Ok? {
      var (dreamer, dreamt) := Dream(hc, next, turn.session, Some((0, false)), clock.first, clock.now);
      if dreamt.Ok? { AgainNames(hc, dreamer, turn, key, clock, dreamt.value); }
    }
  }

  /** A turn without a session is refused and changes nothing. An answered turn names its key; it is
      integrated exactly if it was to be written through, unless it napped. */
  lemma TurnAnswers(hc: HostConfig, h: Host, turn: Turn, clock: Clock)
    requires Scheduler.Housed(h.sched.reg)
    ensures var (next, r) := ObserveTurn(hc, h, turn, clock);
            && (hc.loop.blank(turn.session) ==> r == Err(SessionRequired) && next == h)
            && Names(hc, turn, NameOfTurn(hc, turn, h.count + 1), r)
  {
    if !hc.loop.blank(turn.session) {
      var key := NameOfTurn(hc, turn, h.count + 1);
      var (loop, r) := Express(hc.loop, h.loop, turn.session, key, hc.turnValue(turn.text, turn.action), ActorOf(hc, turn), turn.tags, 1.0, 1.0);
      AdmitNames(hc, h.(count := h.count + 1, loop := loop), turn, key, clock);
    }
  }

  ghost predicate IsRoot(reg: Scheduler.Registry, id: string, rank: int) {
    id in reg.drives && reg.drives[id] == Scheduler.Drive(id, None, rank, true)
  }

  /** A host opens with three drives, the most urgent first, and one task that dreams when everything
      else rests: a repeating one of thirty-two attempts, one millisecond apart. */
  lemma OpensWithDream(hc: HostConfig, db: Dreamcatcher.Db)
    ensures var s := Open(hc, db).sched;
            && !s.idle && s.active == None && s.leaseDuration == 60000 && s.maxPromotions == 1
            && s.reg.driveOrder == ["system-stability", "task-fulfillment", "epigenetic-optimization"]
            && s.reg.taskOrder == ["dream-cycle"] && "dream-cycle" in s.reg.tasks
            && (forall i :: 0 <= i < 3 ==> IsRoot(s.reg, s.reg.driveOrder[i], i))
            && s.reg.tasks["dream-cycle"] == Scheduler.Task("dream-cycle", "epigenetic-optimization", 0, {"dreamcatcher:write"}, 32, 1,
                                                            true, true, 0, 0, Scheduler.Ready, 0, None)
  {
  }
}
