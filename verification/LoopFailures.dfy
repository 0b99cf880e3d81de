/** Runs of the loop from the empty state in which a property fails whose exact condition is proved
    in LoopRuns, LoopLimits, Durability or VisibleRecall. */
module LoopFailures {
  import opened Common
  import opened Decimal
  import opened FeedbackLoop
  import opened LifecycleLog
  import opened LoopRuns
  import opened WorkingSets
  import Durability
  import StoredKeys
  import VisibleRecall
  import Objects
  import Trie
  import Dreamcatcher
  import Recall

  /** Who acts in a run, and where: a session that expresses, another one, what is said, the branch
      and the time of the store. */
  datatype Scene = Scene(cfg: Config, d: Objects.Digests, s: string, other: string, value: string, branch: string, now: string)
  {
    function Tokens(): nat { EstimateTokens(cfg, value) }

    function Said(): Payload { Payload(value, s, [], 1.0, 1.0, Tokens()) }

    /** Sessions that are not blank, and room for one item. */
    predicate Roomy() {
      && !cfg.blank(s) && !cfg.blank(other) && s != other
      && cfg.itemLimit >= 1 && cfg.tokenBudget >= Tokens()
    }

    function Say(k: string): Op { DoExpress(s, k, value, s, [], 1.0, 1.0) }

    function Admit(k: string): Op { DoAdmit(s, k, s) }

    function Store(k: string): Op { DoImpress(s, k, s, branch, now) }

    function Shift(m: Move, k: string): Op { DoMove(m, s, k, s) }

    function Wrap(k: string): Op { DoWrap(s, k, s, branch, now) }

    function Run(db: Dreamcatcher.Db, ops: seq<Op>): World { LoopRuns.Run(cfg, d, db, ops) }

    function Input(k: string): Dreamcatcher.Input { ImpressInput(Said(), k, s, branch) }
  }

  // ---- what the calls do to the loop ---------------------------------------------------

  /** What is followed of a loop: phases, working sets, owners and the length of the log. */
  datatype Brief = Brief(phase: Phases, working: map<string, seq<Item>>, owners: map<string, string>, entries: nat)

  const Nothing := Brief(map[], map[], map[], 0)

  ghost predicate ShowsAt(z: Scene, st: Loop, v: Brief, k: string) {
    && st.phase == v.phase && st.working == v.working && Owners(st.log) == v.owners && |st.log| == v.entries
    && st.seized == {} && st.goals == {}
    && (k in v.phase ==> k in st.payload && st.payload[k] == z.Said())
  }

  ghost predicate Shows(z: Scene, st: Loop, v: Brief) {
    forall k :: ShowsAt(z, st, v, k)
  }

  /** Nothing is in the session's working set. */
  predicate Idle(z: Scene, v: Brief) {
    z.s in v.working ==> v.working[z.s] == []
  }

  function Attended(z: Scene, v: Brief, k: string): Brief {
    Brief(v.phase[k := Attention], v.working[z.s := [Item(k, z.Tokens())]], v.owners[k := z.s], v.entries + 2)
  }

  function Stored(z: Scene, v: Brief, k: string): Brief {
    Brief(v.phase[k := Integration], v.working[z.s := []], v.owners[k := z.s], v.entries + 3)
  }

  function Dropped(v: Brief, session: string, k: string): Brief {
    if session in v.working then v.(working := v.working[session := DropItem(v.working[session], k)]) else v
  }

  function Shifted(v: Brief, k: string, to: Phase): Brief {
    v.(phase := v.phase[k := to], entries := v.entries + 1)
  }

  lemma AppendShows(z: Scene, st: Loop, v: Brief, key: string, from: Phase, to: Phase, direction: Direction, reason: string, session: string)
    requires Shows(z, st, v) && Lookup(v.phase, key) == Some(from) && from != to
    ensures Shows(z, Append(st, key, Some(from), to, direction, reason, session, session, None), Shifted(v, key, to))
  {
    var next := Append(st, key, Some(from), to, direction, reason, session, session, None);
    forall k ensures ShowsAt(z, next, Shifted(v, key, to), k) {
      assert ShowsAt(z, st, v, k);
      assert next.log[..|st.log|] == st.log;
    }
  }

  lemma ReleaseShows(z: Scene, st: Loop, v: Brief, session: string, k: string)
    requires Shows(z, st, v)
    ensures Shows(z, Release(st, session, k), Dropped(v, session, k))
  {
    forall x ensures ShowsAt(z, Release(st, session, k), Dropped(v, session, k), x) { assert ShowsAt(z, st, v, x); }
  }

  lemma TouchShows(z: Scene, st: Loop, v: Brief, session: string, k: string)
    requires Shows(z, st, v)
    ensures Shows(z, Touch(st, session, k), v)
  {
    forall x ensures ShowsAt(z, Touch(st, session, k), v, x) { assert ShowsAt(z, st, v, x); }
  }

  lemma SayShows(z: Scene, w: World, v: Brief, k: string)
    requires Shows(z, w.loop, v) && z.Roomy() && k !in v.phase
    ensures var next := Step(z.cfg, z.d, w, z.Say(k));
            next.db == w.db && Shows(z, next.loop, v.(phase := v.phase[k := Derivation], owners := v.owners[k := z.s], entries := v.entries + 1))
  {
    var next := Step(z.cfg, z.d, w, z.Say(k)).loop;
    assert ShowsAt(z, w.loop, v, k);
    var after := v.(phase := v.phase[k := Derivation], owners := v.owners[k := z.s], entries := v.entries + 1);
    forall x ensures ShowsAt(z, next, after, x) {
      assert ShowsAt(z, w.loop, v, x);
      assert next.log[..|w.loop.log|] == w.loop.log;
    }
  }

  lemma HoldShows(z: Scene, st: Loop, v: Brief, items: seq<Item>)
    requires Shows(z, st, v)
    ensures Shows(z, st.(working := st.working[z.s := items]), v.(working := v.working[z.s := items]))
  {
    var held, with := st.(working := st.working[z.s := items]), v.(working := v.working[z.s := items]);
    forall x ensures ShowsAt(z, held, with, x) {
      assert ShowsAt(z, st, v, x);
    }
  }

  lemma AdmitShows(z: Scene, w: World, v: Brief, k: string)
    requires Shows(z, w.loop, v) && z.Roomy() && Lookup(v.phase, k) == Some(Derivation) && Idle(z, v)
    ensures var next := Step(z.cfg, z.d, w, z.Admit(k));
            next.db == w.db && Shows(z, next.loop, Shifted(v.(working := v.working[z.s := [Item(k, z.Tokens())]]), k, Attention))
  {
    var st, items := w.loop, [Item(k, z.Tokens())];
    assert ShowsAt(z, st, v, k);
    var working, with := st.(working := st.working[z.s := items]), v.(working := v.working[z.s := items]);
    HoldShows(z, st, v, items);
    TouchShows(z, working, with, z.s, k);
    TransitionOutcome(z.cfg, Touch(working, z.s, k), k, Attention, "admit", z.s, z.s, false);
    AppendShows(z, Touch(working, z.s, k), with, k, Derivation, Attention, DirectionOf(Derivation, Attention), "admit", z.s);
  }

  lemma TransitionShows(z: Scene, st: Loop, v: Brief, k: string, to: Phase, reason: string, session: string)
    requires Shows(z, st, v) && !z.cfg.blank(session) && k in v.phase && Passable(v.phase[k], to, false)
    ensures var r := Transition(z.cfg, st, k, to, reason, session, session, false);
            r.Ok? && Shows(z, r.value, Shifted(if v.phase[k] == Attention then Dropped(v, session, k) else v, k, to))
  {
    assert ShowsAt(z, st, v, k);
    TransitionOutcome(z.cfg, st, k, to, reason, session, session, false);
    if v.phase[k] == Attention {
      ReleaseShows(z, st, v, session, k);
      AppendShows(z, Release(st, session, k), Dropped(v, session, k), k, v.phase[k], to, DirectionOf(v.phase[k], to), reason, session);
    } else {
      AppendShows(z, st, v, k, v.phase[k], to, DirectionOf(v.phase[k], to), reason, session);
    }
  }

  /** A move along an edge that is not a disintegration. */
  lemma ShiftShows(z: Scene, w: World, v: Brief, m: Move, session: string, k: string)
    requires Shows(z, w.loop, v) && !z.cfg.blank(session) && k in v.phase && !m.DisintegrateMove? && Passable(v.phase[k], Target(m), false)
    ensures var next := Step(z.cfg, z.d, w, DoMove(m, session, k, session));
            next.db == w.db && Shows(z, next.loop, Shifted(if v.phase[k] == Attention then Dropped(v, session, k) else v, k, Target(m)))
  {
    assert ShowsAt(z, w.loop, v, k);
    TransitionShows(z, w.loop, v, k, Target(m), ReasonOf(m), session);
  }

  lemma DisintegrateShows(z: Scene, w: World, v: Brief, k: string)
    requires Shows(z, w.loop, v) && z.Roomy() && Lookup(v.phase, k) == Some(Containment)
    ensures var next := Step(z.cfg, z.d, w, z.Shift(DisintegrateMove, k));
            next.db == w.db && Shows(z, next.loop, Shifted(Dropped(v, z.s, k), k, Disintegration))
  {
    assert ShowsAt(z, w.loop, v, k);
    ReleaseShows(z, w.loop, v, z.s, k);
    TransitionShows(z, Release(w.loop, z.s, k), Dropped(v, z.s, k), k, Disintegration, "disintegrate", z.s);
  }

  /** A disintegration that the edges refuse, after the item was given up. */
  lemma RefusalShows(z: Scene, w: World, v: Brief, k: string)
    requires Shows(z, w.loop, v) && z.Roomy() && Lookup(v.phase, k) == Some(Attention)
    ensures Shows(z, Step(z.cfg, z.d, w, z.Shift(DisintegrateMove, k)).loop, Dropped(v, z.s, k))
  {
    assert ShowsAt(z, w.loop, v, k);
    ReleaseShows(z, w.loop, v, z.s, k);
    TransitionOutcome(z.cfg, Release(w.loop, z.s, k), k, Disintegration, "disintegrate", z.s, z.s, false);
  }

  lemma StoreShows(z: Scene, w: World, v: Brief, k: string)
    requires Shows(z, w.loop, v) && z.Roomy() && Lookup(v.phase, k) == Some(Attention)
    requires Dreamcatcher.Remember(z.d, w.db, z.Input(k), z.now).1.Ok?
    ensures var next := Step(z.cfg, z.d, w, z.Store(k));
            && next.db == Dreamcatcher.Remember(z.d, w.db, z.Input(k), z.now).0
            && Shows(z, next.loop, Shifted(Dropped(Dropped(v, z.s, k), z.s, k), k, Integration))
  {
    assert ShowsAt(z, w.loop, v, k);
    ReleaseShows(z, w.loop, v, z.s, k);
    TouchShows(z, Release(w.loop, z.s, k), Dropped(v, z.s, k), z.s, k);
    TransitionShows(z, Touch(Release(w.loop, z.s, k), z.s, k), Dropped(v, z.s, k), k, Integration, "impress", z.s);
  }

  // ---- pieces of runs ------------------------------------------------------------------

  lemma NextOfRun(z: Scene, db: Dreamcatcher.Db, ops: seq<Op>, i: nat)
    requires i < |ops|
    ensures z.Run(db, ops[..i + 1]) == Step(z.cfg, z.d, z.Run(db, ops[..i]), ops[i])
  {
    assert ops[..i + 1][..i] == ops[..i];
  }

  /** The state after the first i calls. */
  ghost predicate After(z: Scene, db: Dreamcatcher.Db, ops: seq<Op>, i: nat, v: Brief) {
    i <= |ops| && z.Roomy() && Shows(z, z.Run(db, ops[..i]).loop, v)
  }

  lemma AtStart(z: Scene, db: Dreamcatcher.Db, ops: seq<Op>, i: nat, v: Brief)
    requires z.Roomy() && i == 0 && v == Nothing
    ensures After(z, db, ops, i, v) && z.Run(db, ops[..i]).db == db && Idle(z, v)
  {
    forall k ensures ShowsAt(z, EmptyLoop, v, k) { }
  }

  lemma AtEnd(z: Scene, db: Dreamcatcher.Db, ops: seq<Op>, i: nat)
    requires i == |ops|
    ensures z.Run(db, ops[..i]) == z.Run(db, ops)
  {
    assert ops[..i] == ops;
  }

  ghost predicate Attends(z: Scene, ops: seq<Op>, i: nat, k: string) {
    i + 2 <= |ops| && ops[i] == z.Say(k) && ops[i + 1] == z.Admit(k)
  }

  /** A key brought into attention. */
  lemma AttendedRun(z: Scene, db: Dreamcatcher.Db, ops: seq<Op>, i: nat, v: Brief, k: string)
    requires After(z, db, ops, i, v) && Attends(z, ops, i, k) && k !in v.phase && Idle(z, v)
    ensures z.Run(db, ops[..i + 2]).db == z.Run(db, ops[..i]).db && After(z, db, ops, i + 2, Attended(z, v, k))
  {
    NextOfRun(z, db, ops, i);
    SayShows(z, z.Run(db, ops[..i]), v, k);
    NextOfRun(z, db, ops, i + 1);
    var said := v.(phase := v.phase[k := Derivation], owners := v.owners[k := z.s], entries := v.entries + 1);
    AdmitShows(z, z.Run(db, ops[..i + 1]), said, k);
    assert Shifted(said.(working := said.working[z.s := [Item(k, z.Tokens())]]), k, Attention) == Attended(z, v, k);
  }

  lemma ItemIsDropped(z: Scene, v: Brief, k: string)
    ensures Dropped(Attended(z, v, k), z.s, k) == Attended(z, v, k).(working := v.working[z.s := []])
    ensures Shifted(Dropped(Dropped(Attended(z, v, k), z.s, k), z.s, k), k, Integration) == Stored(z, v, k)
  {
    var items := [Item(k, z.Tokens())];
    assert items[..0] == [] && DropItem(items, k) == [] && DropItem([], k) == [];
    var dropped := Dropped(Attended(z, v, k), z.s, k);
    assert dropped.working == v.working[z.s := []];
    assert Dropped(dropped, z.s, k).working == v.working[z.s := []];
  }

  ghost predicate Stores(z: Scene, ops: seq<Op>, i: nat, k: string) {
    i + 3 <= |ops| && Attends(z, ops, i, k) && ops[i + 2] == z.Store(k)
  }

  /** A key brought into attention and stored. */
  lemma StoredRun(z: Scene, db: Dreamcatcher.Db, ops: seq<Op>, i: nat, v: Brief, k: string)
    requires After(z, db, ops, i, v) && Stores(z, ops, i, k) && k !in v.phase && Idle(z, v)
    requires Dreamcatcher.Remember(z.d, z.Run(db, ops[..i]).db, z.Input(k), z.now).1.Ok?
    ensures z.Run(db, ops[..i + 3]).db == Dreamcatcher.Remember(z.d, z.Run(db, ops[..i]).db, z.Input(k), z.now).0
    ensures After(z, db, ops, i + 3, Stored(z, v, k))
  {
    AttendedRun(z, db, ops, i, v, k);
    NextOfRun(z, db, ops, i + 2);
    StoreShows(z, z.Run(db, ops[..i + 2]), Attended(z, v, k), k);
    ItemIsDropped(z, v, k);
  }

  ghost predicate Contains(z: Scene, ops: seq<Op>, i: nat, k: string) {
    i + 2 <= |ops| && ops[i] == z.Shift(FridgeMove, k) && ops[i + 1] == z.Shift(FreezerMove, k)
  }

  function Contained(v: Brief, k: string): Brief { Shifted(Shifted(v, k, Partition), k, Containment) }

  /** An integrated key shelved and then contained. */
  lemma ContainedRun(z: Scene, db: Dreamcatcher.Db, ops: seq<Op>, i: nat, v: Brief, k: string)
    requires After(z, db, ops, i, v) && Contains(z, ops, i, k) && Lookup(v.phase, k) == Some(Integration)
    ensures z.Run(db, ops[..i + 2]).db == z.Run(db, ops[..i]).db && After(z, db, ops, i + 2, Contained(v, k))
  {
    NextOfRun(z, db, ops, i);
    ShiftShows(z, z.Run(db, ops[..i]), v, FridgeMove, z.s, k);
    NextOfRun(z, db, ops, i + 1);
    ShiftShows(z, z.Run(db, ops[..i + 1]), Shifted(v, k, Partition), FreezerMove, z.s, k);
  }

  // ---- integrated but not stored -------------------------------------------------------

  /** Express, admit and reintegrate: the key is integrated, and the branch has never heard of it. */
  lemma IntegratedButNotStored(z: Scene, db: Dreamcatcher.Db, ops: seq<Op>, k: string)
    requires z.Roomy() && ops == [z.Say(k), z.Admit(k), z.Shift(ReintegrateMove, k)]
    requires !z.d.blank(k) && db == Dreamcatcher.CreateBranch(z.d, Dreamcatcher.EmptyDb, z.branch, z.s).0
    ensures z.Run(db, ops).loop.phase == map[k := Integration]
    ensures Dreamcatcher.Get(z.d, z.Run(db, ops).db, z.branch, k) == Ok(None)
    ensures !Durability.AllDurable(z.d, z.Run(db, ops), z.branch)
  {
    AtStart(z, db, ops, 0, Nothing);
    ReintegratedRun(z, db, ops, 0, Nothing, k);
    AtEnd(z, db, ops, 3);
    IsNotDurable(z, z.Run(db, ops), k);
  }

  lemma ReintegratedRun(z: Scene, db: Dreamcatcher.Db, ops: seq<Op>, i: nat, v: Brief, k: string)
    requires After(z, db, ops, i, v) && v == Nothing && Idle(z, v) && Attends(z, ops, i, k)
    requires i + 3 <= |ops| && ops[i + 2] == z.Shift(ReintegrateMove, k)
    ensures z.Run(db, ops[..i + 3]).db == z.Run(db, ops[..i]).db && z.Run(db, ops[..i + 3]).loop.phase == map[k := Integration]
  {
    AttendedRun(z, db, ops, i, v, k);
    NextOfRun(z, db, ops, i + 2);
    ShiftShows(z, z.Run(db, ops[..i + 2]), Attended(z, v, k), ReintegrateMove, z.s, k);
    assert ShowsAt(z, z.Run(db, ops[..i + 3]).loop, Shifted(Dropped(Attended(z, v, k), z.s, k), k, Integration), k);
  }

  lemma IsNotDurable(z: Scene, w: World, k: string)
    requires w.loop.phase == map[k := Integration] && Dreamcatcher.Get(z.d, w.db, z.branch, k) == Ok(None)
    ensures !Durability.AllDurable(z.d, w, z.branch)
  {
    assert k in w.loop.phase && w.loop.phase[k] == Integration;
  }

  // ---- working sets and attention ------------------------------------------------------

  /** Another session shelves a key: its owner goes on holding it. */
  lemma HeldButNotAttended(z: Scene, db: Dreamcatcher.Db, ops: seq<Op>, k: string)
    requires z.Roomy() && ops == [z.Say(k), z.Admit(k), DoMove(FridgeMove, z.other, k, z.other)]
    ensures var st := z.Run(db, ops).loop;
            Lookup(st.phase, k) == Some(Partition) && WorkingSets.Holds(st, z.s, k) && !HeldIsAttended(st)
  {
    AtStart(z, db, ops, 0, Nothing);
    ForeignRun(z, db, ops, 0, Nothing, k);
    AtEnd(z, db, ops, 3);
  }

  lemma ForeignRun(z: Scene, db: Dreamcatcher.Db, ops: seq<Op>, i: nat, v: Brief, k: string)
    requires After(z, db, ops, i, v) && v == Nothing && Idle(z, v) && Attends(z, ops, i, k)
    requires i + 3 <= |ops| && ops[i + 2] == DoMove(FridgeMove, z.other, k, z.other)
    ensures var st := z.Run(db, ops[..i + 3]).loop;
            Lookup(st.phase, k) == Some(Partition) && WorkingSets.Holds(st, z.s, k) && !HeldIsAttended(st)
  {
    AttendedRun(z, db, ops, i, v, k);
    NextOfRun(z, db, ops, i + 2);
    ShiftShows(z, z.Run(db, ops[..i + 2]), Attended(z, v, k), FridgeMove, z.other, k);
    StaleItem(z, z.Run(db, ops[..i + 3]).loop, Shifted(Attended(z, v, k), k, Partition), k);
  }

  lemma StaleItem(z: Scene, st: Loop, v: Brief, k: string)
    requires Shows(z, st, v) && Lookup(v.phase, k) == Some(Partition) && Lookup(v.working, z.s) == Some([Item(k, z.Tokens())])
    ensures Lookup(st.phase, k) == Some(Partition) && WorkingSets.Holds(st, z.s, k) && !HeldIsAttended(st)
  {
    assert ShowsAt(z, st, v, k);
    var item := Item(k, z.Tokens());
    assert item in WorkingOf(st, z.s) && item.key == k;
    assert WorkingSets.Holds(st, z.s, k) && !(k in st.phase && st.phase[k] == Attention);
  }

  /** A session disintegrates its own key in attention: the call fails, the item is gone. */
  lemma AttendedButNotHeld(z: Scene, db: Dreamcatcher.Db, ops: seq<Op>, k: string)
    requires z.Roomy() && ops == [z.Say(k), z.Admit(k), z.Shift(DisintegrateMove, k)]
    ensures var st := z.Run(db, ops).loop;
            Lookup(st.phase, k) == Some(Attention) && !WorkingSets.Holds(st, z.s, k) && !AttendedIsHeld(st)
  {
    AtStart(z, db, ops, 0, Nothing);
    RefusedRun(z, db, ops, 0, Nothing, k);
    AtEnd(z, db, ops, 3);
  }

  lemma RefusedRun(z: Scene, db: Dreamcatcher.Db, ops: seq<Op>, i: nat, v: Brief, k: string)
    requires After(z, db, ops, i, v) && v == Nothing && Idle(z, v) && Attends(z, ops, i, k)
    requires i + 3 <= |ops| && ops[i + 2] == z.Shift(DisintegrateMove, k)
    ensures var st := z.Run(db, ops[..i + 3]).loop;
            Lookup(st.phase, k) == Some(Attention) && !WorkingSets.Holds(st, z.s, k) && !AttendedIsHeld(st)
  {
    AttendedRun(z, db, ops, i, v, k);
    NextOfRun(z, db, ops, i + 2);
    RefusalShows(z, z.Run(db, ops[..i + 2]), Attended(z, v, k), k);
    ItemIsDropped(z, v, k);
    DroppedItem(z, z.Run(db, ops[..i + 3]).loop, Attended(z, v, k).(working := v.working[z.s := []]), k);
  }

  lemma DroppedItem(z: Scene, st: Loop, v: Brief, k: string)
    requires Shows(z, st, v) && Lookup(v.phase, k) == Some(Attention) && Lookup(v.working, z.s) == Some([]) && Lookup(v.owners, k) == Some(z.s)
    ensures Lookup(st.phase, k) == Some(Attention) && !WorkingSets.Holds(st, z.s, k) && !AttendedIsHeld(st)
  {
    assert ShowsAt(z, st, v, k);
    assert WorkingOf(st, z.s) == [];
  }

  // ---- a way out of containment --------------------------------------------------------

  lemma FrozenRun(z: Scene, db: Dreamcatcher.Db, ops: seq<Op>, i: nat, v: Brief, k: string)
    requires After(z, db, ops, i, v) && v == Nothing && Idle(z, v) && Attends(z, ops, i, k) && Contains(z, ops, i + 2, k)
    ensures After(z, db, ops, i + 4, Contained(Dropped(Attended(z, v, k), z.s, k), k))
  {
    AttendedRun(z, db, ops, i, v, k);
    NextOfRun(z, db, ops, i + 2);
    ShiftShows(z, z.Run(db, ops[..i + 2]), Attended(z, v, k), FridgeMove, z.s, k);
    NextOfRun(z, db, ops, i + 3);
    var shelved := Shifted(Dropped(Attended(z, v, k), z.s, k), k, Partition);
    ShiftShows(z, z.Run(db, ops[..i + 3]), shelved, FreezerMove, z.s, k);
  }

  /** A key is shelved and contained, and a second `fridge` takes it out of containment again. */
  lemma FridgeReleases(z: Scene, db: Dreamcatcher.Db, ops: seq<Op>, k: string)
    requires z.Roomy() && ops == [z.Say(k), z.Admit(k), z.Shift(FridgeMove, k), z.Shift(FreezerMove, k), z.Shift(FridgeMove, k)]
    ensures Lookup(z.Run(db, ops[..4]).loop.phase, k) == Some(Containment)
    ensures Lookup(z.Run(db, ops).loop.phase, k) == Some(Partition)
  {
    AtStart(z, db, ops, 0, Nothing);
    ReleasingRun(z, db, ops, 0, Nothing, k);
    AtEnd(z, db, ops, 5);
  }

  lemma ReleasingRun(z: Scene, db: Dreamcatcher.Db, ops: seq<Op>, i: nat, v: Brief, k: string)
    requires After(z, db, ops, i, v) && v == Nothing && Idle(z, v) && Attends(z, ops, i, k) && Contains(z, ops, i + 2, k)
    requires i + 5 <= |ops| && ops[i + 4] == z.Shift(FridgeMove, k)
    ensures Lookup(z.Run(db, ops[..i + 4]).loop.phase, k) == Some(Containment)
    ensures Lookup(z.Run(db, ops[..i + 5]).loop.phase, k) == Some(Partition)
  {
    FrozenRun(z, db, ops, i, v, k);
    var frozen := Contained(Dropped(Attended(z, v, k), z.s, k), k);
    NextOfRun(z, db, ops, i + 4);
    ShiftShows(z, z.Run(db, ops[..i + 4]), frozen, FridgeMove, z.s, k);
    assert ShowsAt(z, z.Run(db, ops[..i + 4]).loop, frozen, k);
    assert ShowsAt(z, z.Run(db, ops[..i + 5]).loop, Shifted(frozen, k, Partition), k);
  }

  // ---- with a store --------------------------------------------------------------------

  /** A writer that is not blank, with a digest that reads as one. */
  ghost predicate Writable(z: Scene) {
    && z.d.WellFormed() && !z.d.blank(z.s) && z.s != "" && !z.d.blank(z.now)
    && z.d.agentHash(z.s) != "" && z.d.isDigest(z.d.agentHash(z.s))
  }

  /** A key that is stored under its own name. */
  predicate Plain(z: Scene, k: string) { !z.d.blank(k) && z.d.nfc(k) == k }

  function Rec(z: Scene, k: string): Objects.Record {
    var r := Dreamcatcher.BuildRecord(z.d, z.Input(k), z.now);
    if r.Ok? then r.value else Objects.Record("", "", "", 0.0, 0.0, {}, "", "")
  }

  lemma BranchDepicts(z: Scene, db: Dreamcatcher.Db, m: Trie.Content)
    requires Writable(z) && db == Dreamcatcher.CreateBranch(z.d, Dreamcatcher.EmptyDb, z.branch, z.s).0 && m == map[]
    ensures Dreamcatcher.Depicts(z.d, db, map[z.branch := m])
  {
    EmptyDepicts(z, Dreamcatcher.EmptyDb);
    Dreamcatcher.CreateRefines(z.d, Dreamcatcher.EmptyDb, map[], z.branch, z.s);
    assert map[][z.branch := m] == map[z.branch := m];
  }

  lemma EmptyDepicts(z: Scene, db: Dreamcatcher.Db)
    requires z.d.WellFormed() && db == Dreamcatcher.EmptyDb
    ensures Dreamcatcher.Depicts(z.d, db, map[])
  {
    Dreamcatcher.CleanRunDepicts(z.d, []);
  }

  lemma RecIsBuilt(z: Scene, k: string)
    requires Writable(z) && Plain(z, k)
    ensures Dreamcatcher.BuildRecord(z.d, z.Input(k), z.now) == Common.Ok(Rec(z, k))
    ensures Rec(z, k).key == k && Rec(z, k).value == z.value && Rec(z, k).originAgentHash == z.d.agentHash(z.s)
    ensures Rec(z, k).salience == Rec(z, k).confidence == 1.0
    ensures Dreamcatcher.WellMade(z.d, Rec(z, k))
  {
    assert Dreamcatcher.BuildRecord(z.d, z.Input(k), z.now).Ok?;
    Dreamcatcher.BuiltRecordIsWellMade(z.d, z.Input(k), z.now);
  }

  function With(z: Scene, m: Trie.Content, k: string): Trie.Content { m[z.d.PathOf(k) := Rec(z, k)] }

  lemma RecordedThere(z: Scene, m: Trie.Content, k: string)
    requires Writable(z) && Plain(z, k)
    ensures Dreamcatcher.Accepts(z.d, map[z.branch := m], z.Input(k), z.now)
    ensures Dreamcatcher.Recorded(z.d, map[z.branch := m], z.Input(k), z.now) == map[z.branch := With(z, m, k)]
  {
    RecIsBuilt(z, k);
  }

  /** Impressing a key stores its record on the branch. */
  lemma KeyIsStored(z: Scene, db: Dreamcatcher.Db, m: Trie.Content, k: string)
    requires Writable(z) && Plain(z, k) && Dreamcatcher.Depicts(z.d, db, map[z.branch := m])
    ensures var (next, res) := Dreamcatcher.Remember(z.d, db, z.Input(k), z.now);
            res.Ok? && (next.heap.clean ==> Dreamcatcher.Depicts(z.d, next, map[z.branch := With(z, m, k)]))
  {
    Dreamcatcher.RememberRefines(z.d, db, map[z.branch := m], z.Input(k), z.now);
    RecordedThere(z, m, k);
  }

  /** The state after the first i calls, with the store. */
  ghost predicate AfterAll(z: Scene, db: Dreamcatcher.Db, ops: seq<Op>, i: nat, v: Brief, m: Trie.Content) {
    After(z, db, ops, i, v) && Dreamcatcher.Depicts(z.d, z.Run(db, ops[..i]).db, map[z.branch := m])
  }

  lemma FiledRun(z: Scene, db: Dreamcatcher.Db, ops: seq<Op>, i: nat, v: Brief, m: Trie.Content, k: string)
    requires AfterAll(z, db, ops, i, v, m) && Writable(z) && Plain(z, k) && Stores(z, ops, i, k) && k !in v.phase && Idle(z, v)
    requires z.Run(db, ops[..i + 3]).db.heap.clean
    ensures AfterAll(z, db, ops, i + 3, Stored(z, v, k), With(z, m, k)) && Idle(z, Stored(z, v, k))
  {
    KeyIsStored(z, z.Run(db, ops[..i]).db, m, k);
    StoredRun(z, db, ops, i, v, k);
  }

  lemma CleanBefore(z: Scene, db: Dreamcatcher.Db, ops: seq<Op>, i: nat)
    requires FreshRun(z.cfg, z.d, db, ops) && i <= |ops| && z.Run(db, ops).db.heap.clean
    ensures z.Run(db, ops[..i]).db.heap.clean
    decreases |ops| - i
  {
    if i < |ops| {
      CleanBefore(z, db, ops, i + 1);
      FreshPrefix(z.cfg, z.d, db, ops, i);
      RunsKeepInv(z.cfg, z.d, db, ops[..i]);
      NextOfRun(z, db, ops, i);
      Durability.StepIsCleanOnlyFromClean(z.cfg, z.d, z.Run(db, ops[..i]), ops[i]);
    } else {
      AtEnd(z, db, ops, i);
    }
  }

  lemma NothingWrapped(z: Scene, db: Dreamcatcher.Db, ops: seq<Op>)
    requires forall op :: op in ops ==> !op.DoWrap?
    ensures FreshRun(z.cfg, z.d, db, ops)
  {
  }

  lemma UnwrappedKeepsInv(z: Scene, db: Dreamcatcher.Db, ops: seq<Op>)
    requires forall op :: op in ops ==> !op.DoWrap?
    ensures Inv(z.cfg, z.Run(db, ops).loop) && Faithful(z.Run(db, ops).loop)
  {
    NothingWrapped(z, db, ops);
    RunsKeepInv(z.cfg, z.d, db, ops);
  }

  // ---- a derived key that is taken -----------------------------------------------------

  /** The name that a wraparound of the key derives when the log has seven entries. */
  function Eighth(k: string): string { k + "::derived:" + Dec(8) }

  /** The key is stored, contained and disintegrated; the name it will derive is expressed; and the
      key is wrapped around. */
  ghost predicate Misleads(z: Scene, ops: seq<Op>, i: nat, k: string) {
    && Stores(z, ops, i, k) && Contains(z, ops, i + 3, k)
    && i + 8 == |ops| && ops[i + 5] == z.Shift(DisintegrateMove, k) && ops[i + 6] == z.Say(Eighth(k)) && ops[i + 7] == z.Wrap(k)
  }

  function Gone(z: Scene, v: Brief, k: string): Brief {
    Shifted(Dropped(Contained(Stored(z, v, k), k), z.s, k), k, Disintegration)
  }

  lemma DisintegratedRun(z: Scene, db: Dreamcatcher.Db, ops: seq<Op>, i: nat, v: Brief, m: Trie.Content, k: string)
    requires AfterAll(z, db, ops, i, v, m) && Misleads(z, ops, i, k) && k !in v.phase && Idle(z, v)
    requires Writable(z) && Plain(z, k) && z.Run(db, ops[..i + 3]).db.heap.clean
    ensures AfterAll(z, db, ops, i + 6, Gone(z, v, k), With(z, m, k))
  {
    FiledRun(z, db, ops, i, v, m, k);
    ContainedRun(z, db, ops, i + 3, Stored(z, v, k), k);
    NextOfRun(z, db, ops, i + 5);
    DisintegrateShows(z, z.Run(db, ops[..i + 5]), Contained(Stored(z, v, k), k), k);
  }

  lemma ExpressedRun(z: Scene, db: Dreamcatcher.Db, ops: seq<Op>, i: nat, v: Brief, m: Trie.Content, k: string)
    requires AfterAll(z, db, ops, i, v, m) && i < |ops| && ops[i] == z.Say(k) && k !in v.phase
    ensures AfterAll(z, db, ops, i + 1, v.(phase := v.phase[k := Derivation], owners := v.owners[k := z.s], entries := v.entries + 1), m)
  {
    NextOfRun(z, db, ops, i);
    SayShows(z, z.Run(db, ops[..i]), v, k);
  }

  lemma DerivedIsAccepted(z: Scene, c: Dreamcatcher.Picture, parent: Objects.Record, k: string, derived: string)
    requires Writable(z) && Plain(z, derived) && z.branch in c && parent.originAgentHash == z.d.agentHash(z.s)
    ensures Dreamcatcher.Accepts(z.d, c, DerivedInput(z.cfg, derived, k, parent, z.s, z.branch), z.now)
  {
  }

  lemma ParentIsFound(z: Scene, db: Dreamcatcher.Db, m: Trie.Content, k: string)
    requires Writable(z) && Plain(z, k) && Dreamcatcher.Depicts(z.d, db, map[z.branch := With(z, m, k)])
    ensures Dreamcatcher.Get(z.d, db, z.branch, k) == Ok(Some(Objects.Memory(Rec(z, k))))
  {
    RecIsBuilt(z, k);
    Dreamcatcher.GetRefines(z.d, db, map[z.branch := With(z, m, k)], z.branch, k);
  }

  function DerivedPayload(z: Scene, derived: string, k: string, parent: Objects.Record): Payload {
    var value := z.cfg.derivedValue(k, parent.provenanceHash);
    Payload(value, z.s, ["mfl-derived"], 1.0, 1.0, EstimateTokens(z.cfg, value))
  }

  lemma WrapEmits(z: Scene, w: World, k: string, parent: Objects.Record)
    requires Awake(z.cfg, w.loop, z.s) == None && Lookup(w.loop.phase, k) == Some(Disintegration)
    requires Dreamcatcher.Get(z.d, w.db, z.branch, k) == Ok(Some(Objects.Memory(parent)))
    requires Dreamcatcher.Remember(z.d, w.db, DerivedInput(z.cfg, DerivedKey(w.loop, k), k, parent, z.s, z.branch), z.now).1.Ok?
    ensures Wrap(z.cfg, z.d, w.loop, w.db, z.s, k, z.s, z.branch, z.now).0
            == Emitted(z.cfg, w.loop, k, DerivedKey(w.loop, k), DerivedPayload(z, DerivedKey(w.loop, k), k, parent), z.s, z.s)
  {
  }

  /** The wraparound is accepted, whatever the name that it derives stands for. */
  lemma WrapIsAccepted(z: Scene, w: World, c: Dreamcatcher.Picture, k: string, parent: Objects.Record)
    requires Writable(z) && Plain(z, DerivedKey(w.loop, k)) && Dreamcatcher.Depicts(z.d, w.db, c) && z.branch in c
    requires parent.originAgentHash == z.d.agentHash(z.s)
    ensures Dreamcatcher.Remember(z.d, w.db, DerivedInput(z.cfg, DerivedKey(w.loop, k), k, parent, z.s, z.branch), z.now).1.Ok?
  {
    var derived := DerivedKey(w.loop, k);
    DerivedIsAccepted(z, c, parent, k, derived);
    Dreamcatcher.RememberRefines(z.d, w.db, c, DerivedInput(z.cfg, derived, k, parent, z.s, z.branch), z.now);
  }

  lemma WrapRuns(z: Scene, w: World, v: Brief, m: Trie.Content, k: string, p: Payload)
    requires Shows(z, w.loop, v) && z.Roomy() && v.entries == 7 && Lookup(v.phase, k) == Some(Disintegration)
    requires Writable(z) && Plain(z, k) && Plain(z, Eighth(k)) && Dreamcatcher.Depicts(z.d, w.db, map[z.branch := With(z, m, k)])
    requires p == DerivedPayload(z, Eighth(k), k, Rec(z, k))
    ensures Wrap(z.cfg, z.d, w.loop, w.db, z.s, k, z.s, z.branch, z.now).0 == Emitted(z.cfg, w.loop, k, Eighth(k), p, z.s, z.s)
  {
    assert ShowsAt(z, w.loop, v, k);
    ParentIsFound(z, w.db, m, k);
    RecIsBuilt(z, k);
    WrapIsAccepted(z, w, map[z.branch := With(z, m, k)], k, Rec(z, k));
    WrapEmits(z, w, k, Rec(z, k));
  }

  lemma WrapBreaks(z: Scene, w: World, k: string, derived: string, p: Payload)
    requires Inv(z.cfg, w.loop) && Lookup(w.loop.phase, k) == Some(Disintegration) && derived in w.loop.phase
    requires Wrap(z.cfg, z.d, w.loop, w.db, z.s, k, z.s, z.branch, z.now).0 == Emitted(z.cfg, w.loop, k, derived, p, z.s, z.s)
    ensures !Faithful(Step(z.cfg, z.d, w, z.Wrap(k)).loop)
  {
    WrapIsFaithfulIffFresh(z.cfg, w.loop, k, derived, p, z.s, z.s);
    WrapSteps(z, w, k);
  }

  lemma WrapSteps(z: Scene, w: World, k: string)
    ensures Step(z.cfg, z.d, w, z.Wrap(k)).loop == Wrap(z.cfg, z.d, w.loop, w.db, z.s, k, z.s, z.branch, z.now).0
  {
  }

  lemma MisledRun(z: Scene, db: Dreamcatcher.Db, ops: seq<Op>, i: nat, v: Brief, m: Trie.Content, k: string)
    requires AfterAll(z, db, ops, i, v, m) && v == Nothing && Misleads(z, ops, i, k) && Inv(z.cfg, z.Run(db, ops[..i + 7]).loop)
    requires Writable(z) && Plain(z, k) && Plain(z, Eighth(k)) && z.Run(db, ops[..i + 3]).db.heap.clean
    ensures !Faithful(z.Run(db, ops[..i + 8]).loop)
  {
    DisintegratedRun(z, db, ops, i, v, m, k);
    var gone := Gone(z, v, k);
    GoneBrief(z, v, k);
    ExpressedRun(z, db, ops, i + 6, gone, With(z, m, k), Eighth(k));
    var last := gone.(phase := gone.phase[Eighth(k) := Derivation], owners := gone.owners[Eighth(k) := z.s], entries := gone.entries + 1);
    LastCallBreaks(z, db, ops, i + 7, last, m, k);
  }

  lemma LastCallBreaks(z: Scene, db: Dreamcatcher.Db, ops: seq<Op>, i: nat, v: Brief, m: Trie.Content, k: string)
    requires AfterAll(z, db, ops, i, v, With(z, m, k)) && i < |ops| && ops[i] == z.Wrap(k) && Inv(z.cfg, z.Run(db, ops[..i]).loop)
    requires v.entries == 7 && Lookup(v.phase, k) == Some(Disintegration) && Eighth(k) in v.phase
    requires Writable(z) && Plain(z, k) && Plain(z, Eighth(k))
    ensures !Faithful(z.Run(db, ops[..i + 1]).loop)
  {
    var w, p := z.Run(db, ops[..i]), DerivedPayload(z, Eighth(k), k, Rec(z, k));
    NextOfRun(z, db, ops, i);
    WrapRuns(z, w, v, m, k, p);
    assert ShowsAt(z, w.loop, v, k);
    WrapBreaks(z, w, k, Eighth(k), p);
  }

  lemma GoneBrief(z: Scene, v: Brief, k: string)
    requires v == Nothing
    ensures Gone(z, v, k).entries == 6 && Gone(z, v, k).phase == map[k := Disintegration] && Eighth(k) != k
  {
    assert |Eighth(k)| > |k|;
  }

  /** A key is expressed under the name that a wraparound goes on to derive: the wraparound
      succeeds, and the log no longer replays to the phases. */
  lemma WrappedOntoATakenKey(z: Scene, db: Dreamcatcher.Db, ops: seq<Op>, k: string)
    requires z.Roomy() && Writable(z) && Plain(z, k) && Plain(z, Eighth(k))
    requires db == Dreamcatcher.CreateBranch(z.d, Dreamcatcher.EmptyDb, z.branch, z.s).0
    requires ops == [z.Say(k), z.Admit(k), z.Store(k), z.Shift(FridgeMove, k), z.Shift(FreezerMove, k),
                     z.Shift(DisintegrateMove, k), z.Say(Eighth(k)), z.Wrap(k)]
    requires z.Run(db, ops[..3]).db.heap.clean
    ensures Faithful(z.Run(db, ops[..7]).loop) && !Faithful(z.Run(db, ops).loop)
  {
    assert Misleads(z, ops, 0, k) && forall op :: op in ops[..7] ==> !op.DoWrap?;
    BranchDepicts(z, db, map[]);
    MisledFromTheStart(z, db, ops, k);
  }

  lemma MisledFromTheStart(z: Scene, db: Dreamcatcher.Db, ops: seq<Op>, k: string)
    requires z.Roomy() && Writable(z) && Plain(z, k) && Plain(z, Eighth(k)) && Dreamcatcher.Depicts(z.d, db, map[z.branch := map[]])
    requires Misleads(z, ops, 0, k) && (forall op :: op in ops[..7] ==> !op.DoWrap?) && z.Run(db, ops[..3]).db.heap.clean
    ensures Faithful(z.Run(db, ops[..7]).loop) && !Faithful(z.Run(db, ops).loop)
  {
    UnwrappedKeepsInv(z, db, ops[..7]);
    AtStart(z, db, ops, 0, Nothing);
    MisledRun(z, db, ops, 0, Nothing, map[], k);
    AtEnd(z, db, ops, 8);
  }

  // ---- a hidden record that takes the only place ---------------------------------------

  /** The keys are stored one after the other, and the first is then contained. */
  ghost predicate Hides(z: Scene, ops: seq<Op>, i: nat, a: string, b: string) {
    i + 8 == |ops| && Stores(z, ops, i, a) && Stores(z, ops, i + 3, b) && Contains(z, ops, i + 6, a)
  }

  function BothStored(z: Scene, v: Brief, a: string, b: string): Brief { Contained(Stored(z, Stored(z, v, a), b), a) }

  lemma HidingRun(z: Scene, db: Dreamcatcher.Db, ops: seq<Op>, i: nat, v: Brief, m: Trie.Content, a: string, b: string)
    requires AfterAll(z, db, ops, i, v, m) && Hides(z, ops, i, a, b) && a !in v.phase && b !in v.phase && a != b && Idle(z, v)
    requires Writable(z) && Plain(z, a) && Plain(z, b)
    requires z.Run(db, ops[..i + 3]).db.heap.clean && z.Run(db, ops[..i + 6]).db.heap.clean
    ensures AfterAll(z, db, ops, i + 8, BothStored(z, v, a, b), With(z, With(z, m, a), b))
  {
    FiledRun(z, db, ops, i, v, m, a);
    FiledRun(z, db, ops, i + 3, Stored(z, v, a), With(z, m, a), b);
    ContainedRun(z, db, ops, i + 6, Stored(z, Stored(z, v, a), b), a);
  }

  /** A query under which the first key matters and nothing else does. */
  function Biased(z: Scene, a: string, less: (string, string) -> bool): Recall.Query {
    Recall.Query(z.s, (r: Objects.Record) => if r.key == a then 1.0 else 0.0, 1.0, 1.0, less)
  }

  lemma BiasedScore(z: Scene, a: string, k: string, less: (string, string) -> bool)
    requires Writable(z) && Plain(z, k)
    ensures var row := Recall.WeightMemory(z.d, Rec(z, k), Biased(z, a, less));
            row.Ok? && row.value.record == Rec(z, k) && row.value.score == if k == a then 1.0 else 0.0
  {
    RecIsBuilt(z, k);
  }

  ghost predicate TwoRecords(m: Trie.Content, p: Objects.Path, q: Objects.Path, first: Objects.Record, second: Objects.Record) {
    p != q && m.Keys == {p, q} && m[p] == first && m[q] == second
  }

  ghost predicate Scores(d: Objects.Digests, query: Recall.Query, r: Objects.Record, score: real) {
    Recall.WeightMemory(d, r, query).Ok? && Recall.WeightMemory(d, r, query).value.score == score
  }

  /** Of two records, one scores one and the other nothing. */
  lemma OneIsFirst(d: Objects.Digests, m: Trie.Content, query: Recall.Query, p: Objects.Path, q: Objects.Path,
                   first: Objects.Record, second: Objects.Record)
    requires TwoRecords(m, p, q, first, second) && Scores(d, query, first, 1.0) && Scores(d, query, second, 0.0)
    ensures Recall.Weighable(d, m, query) && |m| == 2 && VisibleRecall.First(d, m, query, {p})
  {
    assert |m| == |m.Keys|;
  }

  /** The hidden row fills the only place. */
  lemma PlaceIsTaken(d: Objects.Digests, st: Loop, db: Dreamcatcher.Db, c: Dreamcatcher.Picture, branch: string, query: Recall.Query,
                     p: Objects.Path, q: Objects.Path, first: Objects.Record, second: Objects.Record)
    requires Dreamcatcher.Depicts(d, db, c) && branch in c && TwoRecords(c[branch], p, q, first, second) && StringOrder(query.keyLess)
    requires Scores(d, query, first, 1.0) && Scores(d, query, second, 0.0)
    requires !OrdinarilyVisible(st, first.key) && OrdinarilyVisible(st, second.key)
    ensures Recall.Recall(d, db, branch, 1, query).Ok? && RecallOrdinary(st, d, db, branch, 1, query) == Ok([])
  {
    OneIsFirst(d, c[branch], query, p, q, first, second);
    Recall.RecallIsDetermined(d, db, c, branch, 1, query);
    VisibleRecall.TopIsRanked(d, db, c, branch, 1, query);
    VisibleRecall.TopIsRows(d, db, c, branch, 1, query);
    var top := Recall.Recall(d, db, branch, 1, query).value;
    VisibleRecall.FirstAreRanked(d, c[branch], query, top, {p});
    OnlyHidden(d, c[branch], Ordinary(st), query, top, p);
  }

  lemma OnlyHidden(d: Objects.Digests, m: Trie.Content, view: View, query: Recall.Query, top: seq<Recall.Row>, p: Objects.Path)
    requires VisibleRecall.RowsOf(d, m, query, top) && VisibleRecall.PathsOf(d, top) == {p} && p in m && !view(m[p].key)
    ensures Filter(top, RowView(view)) == []
  {
    forall row | row in top ensures !RowView(view)(row) {
      assert VisibleRecall.RowAt(d, m, query, row);
      assert VisibleRecall.PathOfRow(d, row) in VisibleRecall.PathsOf(d, top);
    }
    VisibleRecall.NoneKept(top, RowView(view));
  }

  /** The second key is stored and visible, and a recall of one row returns none. */
  ghost predicate Outshone(z: Scene, w: World, a: string, b: string, less: (string, string) -> bool) {
    && StoredKeys.ReadsBack(z.d, w.db, z.branch, b, z.value) && OrdinarilyVisible(w.loop, b)
    && Recall.Recall(z.d, w.db, z.branch, 1, Biased(z, a, less)).Ok?
    && RecallOrdinary(w.loop, z.d, w.db, z.branch, 1, Biased(z, a, less)) == Ok([])
  }

  lemma ReadsBackStored(z: Scene, db: Dreamcatcher.Db, m: Trie.Content, k: string)
    requires Writable(z) && Plain(z, k) && Dreamcatcher.Depicts(z.d, db, map[z.branch := With(z, m, k)])
    ensures StoredKeys.ReadsBack(z.d, db, z.branch, k, z.value)
  {
    RecIsBuilt(z, k);
    ParentIsFound(z, db, m, k);
  }

  lemma EmptyRecall(z: Scene, w: World, m: Trie.Content, a: string, b: string, less: (string, string) -> bool)
    requires Writable(z) && Plain(z, a) && Plain(z, b) && a != b && z.d.PathOf(a) != z.d.PathOf(b) && StringOrder(less)
    requires m == map[] && Dreamcatcher.Depicts(z.d, w.db, map[z.branch := With(z, With(z, m, a), b)])
    requires !OrdinarilyVisible(w.loop, a) && OrdinarilyVisible(w.loop, b)
    ensures Outshone(z, w, a, b, less)
  {
    BiasedScore(z, a, a, less);
    BiasedScore(z, a, b, less);
    RecIsBuilt(z, a);
    RecIsBuilt(z, b);
    PlaceIsTaken(z.d, w.loop, w.db, map[z.branch := With(z, With(z, m, a), b)], z.branch, Biased(z, a, less),
                 z.d.PathOf(a), z.d.PathOf(b), Rec(z, a), Rec(z, b));
    ReadsBackStored(z, w.db, With(z, m, a), b);
  }

  lemma HiddenRun(z: Scene, db: Dreamcatcher.Db, ops: seq<Op>, i: nat, v: Brief, m: Trie.Content, a: string, b: string,
                  less: (string, string) -> bool)
    requires AfterAll(z, db, ops, i, v, m) && v == Nothing && m == map[] && Hides(z, ops, i, a, b) && a != b && StringOrder(less)
    requires Writable(z) && Plain(z, a) && Plain(z, b) && z.d.PathOf(a) != z.d.PathOf(b)
    requires z.Run(db, ops[..i + 3]).db.heap.clean && z.Run(db, ops[..i + 6]).db.heap.clean
    ensures Outshone(z, z.Run(db, ops[..i + 8]), a, b, less)
  {
    HidingRun(z, db, ops, i, v, m, a, b);
    FirstIsHidden(z, z.Run(db, ops[..i + 8]).loop, v, a, b);
    EmptyRecall(z, z.Run(db, ops[..i + 8]), m, a, b, less);
  }

  lemma FirstIsHidden(z: Scene, st: Loop, v: Brief, a: string, b: string)
    requires Shows(z, st, BothStored(z, v, a, b)) && v == Nothing && a != b
    ensures !OrdinarilyVisible(st, a) && OrdinarilyVisible(st, b)
  {
    assert ShowsAt(z, st, BothStored(z, v, a, b), a);
  }

  /** Of two stored records the first is contained, and a recall of one row for which the first
      matters more comes back empty: the hidden row took the place of the visible one. */
  lemma HiddenTakesThePlace(z: Scene, db: Dreamcatcher.Db, ops: seq<Op>, a: string, b: string, less: (string, string) -> bool)
    requires z.Roomy() && Writable(z) && Plain(z, a) && Plain(z, b) && a != b && z.d.PathOf(a) != z.d.PathOf(b) && StringOrder(less)
    requires db == Dreamcatcher.CreateBranch(z.d, Dreamcatcher.EmptyDb, z.branch, z.s).0
    requires ops == [z.Say(a), z.Admit(a), z.Store(a), z.Say(b), z.Admit(b), z.Store(b), z.Shift(FridgeMove, a), z.Shift(FreezerMove, a)]
    requires z.Run(db, ops).db.heap.clean
    ensures Outshone(z, z.Run(db, ops), a, b, less)
  {
    assert Hides(z, ops, 0, a, b) && forall op :: op in ops ==> !op.DoWrap?;
    BranchDepicts(z, db, map[]);
    HiddenFromTheStart(z, db, ops, a, b, less);
  }

  lemma HiddenFromTheStart(z: Scene, db: Dreamcatcher.Db, ops: seq<Op>, a: string, b: string, less: (string, string) -> bool)
    requires z.Roomy() && Writable(z) && Plain(z, a) && Plain(z, b) && a != b && z.d.PathOf(a) != z.d.PathOf(b) && StringOrder(less)
    requires Dreamcatcher.Depicts(z.d, db, map[z.branch := map[]])
    requires Hides(z, ops, 0, a, b) && (forall op :: op in ops ==> !op.DoWrap?) && z.Run(db, ops).db.heap.clean
    ensures Outshone(z, z.Run(db, ops), a, b, less)
  {
    NothingWrapped(z, db, ops);
    CleanBefore(z, db, ops, 3);
    CleanBefore(z, db, ops, 6);
    AtStart(z, db, ops, 0, Nothing);
    HiddenRun(z, db, ops, 0, Nothing, map[], a, b, less);
    AtEnd(z, db, ops, 8);
  }
}
