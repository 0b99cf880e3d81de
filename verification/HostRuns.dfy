/** What every call of the cognitive host keeps: keys are new, no session is ever recovered or
    seized, attention is held, and what is integrated is stored. */
module HostRuns {
  import opened Common
  import opened Decimal
  import opened Detector
  import opened FeedbackLoop
  import opened LifecycleLog
  import LoopRuns
  import opened LoopTheorems
  import opened WorkingSets
  import opened Hosts
  import opened StoredKeys
  import Scheduler
  import IdleScheduler
  import Objects
  import Dreamcatcher

  // ---- keys ---------------------------------------------------------------------------

  predicate Plain(t: string) { forall i :: 0 <= i < |t| ==> t[i] as int < 128 && t[i] != ':' }

  /** An ASCII suffix that starts with a colon: normalization never reaches into it. */
  predicate Tail(t: string) { t != "" && t[0] == ':' && forall i :: 0 <= i < |t| ==> t[i] as int < 128 }

  /** Digests are 64 plain characters, and normalization leaves ASCII suffixes alone. */
  ghost predicate Reasonable(hc: HostConfig) {
    && hc.d.WellFormed()
    && (forall text, action :: |hc.turnDigest(text, action)| == 64 && Plain(hc.turnDigest(text, action)))
    && (forall s, t :: Tail(t) ==> hc.d.nfc(s + t) == hc.d.nfc(s) + t)
  }

  /** The end of a key: number and digest. */
  function KeyTail(hc: HostConfig, n: nat, text: string, action: string): string {
    ":" + Dec(n) + ":" + hc.turnDigest(text, action)
  }

  lemma TailsTell(a: string, m: nat, x: string, b: string, n: nat, y: string)
    requires a + (":" + Dec(m) + ":" + x) == b + (":" + Dec(n) + ":" + y) && |x| == |y|
    ensures m == n
  {
    var s, t := a + (":" + Dec(m) + ":" + x), b + (":" + Dec(n) + ":" + y);
    var p, q := a + ":" + Dec(m), b + ":" + Dec(n);
    assert s == p + (":" + x) && t == q + (":" + y);
    assert |p| == |q|;
    assert p == s[..|p|] && q == t[..|q|];
    LastNumeral(a, m, b, n);
  }

  lemma KeyTailIsTail(hc: HostConfig, n: nat, text: string, action: string)
    requires Reasonable(hc)
    ensures Tail(KeyTail(hc, n, text, action))
  {
    var t, digest := KeyTail(hc, n, text, action), hc.turnDigest(text, action);
    forall i | 0 <= i < |t| ensures t[i] as int < 128 {
      if 0 < i <= |Dec(n)| {
        assert t[i] == Dec(n)[i - 1] && Dec(n)[i - 1] in Dec(n);
      } else if i > |Dec(n)| + 1 {
        assert t[i] == digest[i - |Dec(n)| - 2];
      }
    }
  }

  /** The key was made for the n-th turn. */
  ghost predicate Named(hc: HostConfig, k: string, n: nat) {
    exists session, text, action :: k == TurnKey(hc, session, n, text, action)
  }

  /** Keys of different turns stay different, even normalized, whatever was said in them. */
  lemma NamesTell(hc: HostConfig, k1: string, m: nat, k2: string, n: nat)
    requires Reasonable(hc) && Named(hc, k1, m) && Named(hc, k2, n)
    ensures k1 == k2 || hc.d.nfc(k1) == hc.d.nfc(k2) ==> m == n
  {
    var s1, t1, a1 :| k1 == TurnKey(hc, s1, m, t1, a1);
    var s2, t2, a2 :| k2 == TurnKey(hc, s2, n, t2, a2);
    KeyTailIsTail(hc, m, t1, a1);
    KeyTailIsTail(hc, n, t2, a2);
    assert k1 == ("turn:" + s1) + KeyTail(hc, m, t1, a1);
    assert k2 == ("turn:" + s2) + KeyTail(hc, n, t2, a2);
    if k1 == k2 {
      TailsTell("turn:" + s1, m, hc.turnDigest(t1, a1), "turn:" + s2, n, hc.turnDigest(t2, a2));
    } else if hc.d.nfc(k1) == hc.d.nfc(k2) {
      TailsTell(hc.d.nfc("turn:" + s1), m, hc.turnDigest(t1, a1), hc.d.nfc("turn:" + s2), n, hc.turnDigest(t2, a2));
    }
  }

  ghost predicate NamedUpTo(hc: HostConfig, k: string, count: nat) {
    exists n: nat :: n <= count && Named(hc, k, n)
  }

  ghost predicate ShareNumber(hc: HostConfig, k1: string, k2: string) {
    exists n: nat :: Named(hc, k1, n) && Named(hc, k2, n)
  }

  /** Every key in the lifecycle is the key of its own turn, up to the given one. */
  ghost predicate Numbered(hc: HostConfig, keys: set<string>, count: nat) {
    && (forall k :: k in keys ==> NamedUpTo(hc, k, count))
    && (forall k1, k2 :: k1 in keys && k2 in keys && ShareNumber(hc, k1, k2) ==> k1 == k2)
  }

  lemma NoNumberShared(hc: HostConfig, count: nat, known: string, next: string)
    requires Reasonable(hc) && NamedUpTo(hc, known, count) && Named(hc, next, count + 1)
    ensures !ShareNumber(hc, known, next) && !ShareNumber(hc, next, known) && known != next
  {
    var m: nat :| m <= count && Named(hc, known, m);
    forall n: nat ensures (Named(hc, known, n) ==> n == m) && (Named(hc, next, n) ==> n == count + 1) {
      if Named(hc, known, n) { NamesTell(hc, known, m, known, n); }
      if Named(hc, next, n) { NamesTell(hc, next, n, next, count + 1); }
    }
    assert Named(hc, known, m);
  }

  lemma NewKeyIsNew(hc: HostConfig, keys: set<string>, count: nat, k: string)
    requires Reasonable(hc) && Numbered(hc, keys, count) && Named(hc, k, count + 1)
    ensures k !in keys
  {
    if k in keys { NoNumberShared(hc, count, k, k); }
  }

  lemma NewKeyIsNumbered(hc: HostConfig, keys: set<string>, count: nat, k: string)
    requires Reasonable(hc) && Numbered(hc, keys, count) && Named(hc, k, count + 1)
    ensures Numbered(hc, keys + {k}, count + 1)
  {
    forall x | x in keys ensures NamedUpTo(hc, x, count + 1) && !ShareNumber(hc, x, k) && !ShareNumber(hc, k, x) {
      var n: nat :| n <= count && Named(hc, x, n);
      assert n <= count + 1;
      NoNumberShared(hc, count, x, k);
    }
    assert NamedUpTo(hc, k, count + 1);
  }

  // ---- detectors ----------------------------------------------------------------------

  /** No digest collision among the numbered actions in play. */
  ghost predicate Apart(hc: HostConfig, actions: set<string>, limit: nat) {
    forall a: string, b: string, m: nat, n: nat :: a in actions && b in actions && m <= limit && n <= limit && m != n ==>
      hc.actionHash(a, m) != hc.actionHash(b, n)
  }

  ghost predicate Made(hc: HostConfig, actions: set<string>, seen: nat, x: string) {
    exists a: string, n: nat :: a in actions && n <= seen && x == hc.actionHash(a, n)
  }

  /** The detector has only seen different hashes, and has never asked for a recovery. */
  ghost predicate Unmoved(hc: HostConfig, actions: set<string>, seen: nat, s: Stutter) {
    && s.recoveries == 0 && NoDuplicates(s.recent)
    && (forall i :: 0 <= i < |s.recent| ==> Made(hc, actions, seen, s.recent[i]))
    && (s.last.Some? ==> Made(hc, actions, seen, s.last.value))
  }

  ghost predicate AllUnmoved(hc: HostConfig, actions: set<string>, seen: nat, st: Loop) {
    && st.seized == {}
    && forall s :: s in st.stutter ==> Unmoved(hc, actions, seen, st.stutter[s])
  }

  lemma DistinctIsNoCycle(recent: seq<string>)
    requires NoDuplicates(recent)
    ensures !IsCompressedCycle(recent)
  {
  }

  lemma SliceKeepsDistinct(window: int, s: seq<string>)
    requires NoDuplicates(s)
    ensures NoDuplicates(SliceLast(window, s))
    ensures forall x :: x in SliceLast(window, s) ==> x in s
  {
  }

  /** A numbered action that is newer than all seen before asks for no recovery. */
  lemma NewActionPasses(hc: HostConfig, actions: set<string>, seen: nat, n: nat, a: string, s: Stutter)
    requires Unmoved(hc, actions, seen, s) && seen < n && a in actions && Apart(hc, actions, n)
    ensures var noted := Note(hc.loop.hashWindow, s, hc.actionHash(a, n));
            Decide(noted) == None && Unmoved(hc, actions, n, noted)
  {
    var x := hc.actionHash(a, n);
    var noted := Note(hc.loop.hashWindow, s, x);
    forall y | Made(hc, actions, seen, y) ensures y != x && Made(hc, actions, n, y) {
      var b: string, m: nat :| b in actions && m <= seen && y == hc.actionHash(b, m);
    }
    assert NoDuplicates(s.recent + [x]);
    SliceKeepsDistinct(hc.loop.hashWindow, s.recent + [x]);
    DistinctIsNoCycle(noted.recent);
    assert Made(hc, actions, n, x);
    forall i | 0 <= i < |noted.recent| ensures Made(hc, actions, n, noted.recent[i]) {
      assert noted.recent[i] in s.recent + [x];
    }
  }

  lemma UnmovedLater(hc: HostConfig, actions: set<string>, seen: nat, later: nat, st: Loop)
    requires AllUnmoved(hc, actions, seen, st) && seen <= later
    ensures AllUnmoved(hc, actions, later, st)
  {
    forall y | Made(hc, actions, seen, y) ensures Made(hc, actions, later, y) {
      var b: string, m: nat :| b in actions && m <= seen && y == hc.actionHash(b, m);
    }
  }

  // ---- durability ---------------------------------------------------------------------

  /** Everything integrated is stored with its payload. */
  ghost predicate AllStored(hc: HostConfig, st: Loop, c: Dreamcatcher.Picture) {
    forall k :: k in st.phase && st.phase[k] == Integration ==> Stored(hc.d, st, c, hc.branch, k)
  }

  ghost predicate Backed(hc: HostConfig, st: Loop, db: Dreamcatcher.Db) {
    exists c :: Dreamcatcher.Depicts(hc.d, db, c) && AllStored(hc, st, c)
  }

  /** While no digest collision was hit, what is integrated is stored. */
  ghost predicate Safe(hc: HostConfig, st: Loop, db: Dreamcatcher.Db) {
    db.heap.clean && KeysApart(hc.d, st.phase.Keys) ==> Backed(hc, st, db)
  }

  // ---- the invariant ------------------------------------------------------------------

  ghost predicate PlainPhases(m: map<string, Phase>) {
    forall k :: k in m ==> m[k] == Derivation || m[k] == Attention || m[k] == Integration
  }

  ghost predicate Placed(hc: HostConfig, m: map<string, Phase>, count: nat) {
    PlainPhases(m) && Numbered(hc, m.Keys, count)
  }

  ghost predicate Orderly(hc: HostConfig, st: Loop, count: nat) {
    LoopRuns.Inv(hc.loop, st) && Agrees(st, true) && Placed(hc, st.phase, count)
  }

  /** The three parts of what a host keeps. */
  datatype Part = Order | Detectors | Durability

  ghost predicate KeptPart(part: Part, hc: HostConfig, st: Loop, db: Dreamcatcher.Db, count: nat, seen: nat, actions: set<string>) {
    match part
    case Order => Orderly(hc, st, count)
    case Detectors => AllUnmoved(hc, actions, seen, st)
    case Durability => Safe(hc, st, db)
  }

  ghost predicate Kept(hc: HostConfig, st: Loop, db: Dreamcatcher.Db, count: nat, seen: nat, actions: set<string>) {
    forall part :: KeptPart(part, hc, st, db, count, seen, actions)
  }

  lemma PartsOf(hc: HostConfig, st: Loop, db: Dreamcatcher.Db, count: nat, seen: nat, actions: set<string>)
    requires Kept(hc, st, db, count, seen, actions)
    ensures Orderly(hc, st, count) && AllUnmoved(hc, actions, seen, st) && Safe(hc, st, db)
  {
    assert KeptPart(Order, hc, st, db, count, seen, actions);
    assert KeptPart(Detectors, hc, st, db, count, seen, actions);
    assert KeptPart(Durability, hc, st, db, count, seen, actions);
  }

  lemma WholeOf(hc: HostConfig, st: Loop, db: Dreamcatcher.Db, count: nat, seen: nat, actions: set<string>)
    requires Orderly(hc, st, count) && AllUnmoved(hc, actions, seen, st) && Safe(hc, st, db)
    ensures Kept(hc, st, db, count, seen, actions)
  {
  }

  /** No key moves back, none loses its payload or its owner. */
  ghost predicate Advances(a: Loop, b: Loop) {
    && (forall k :: k in a.phase ==>
          k in b.phase && PhaseIndex(a.phase[k]) <= PhaseIndex(b.phase[k]) && (a.phase[k] == Integration ==> b.phase[k] == Integration))
    && (forall k :: k in a.payload ==> k in b.payload && b.payload[k] == a.payload[k])
    && (forall s, k :: Owned(a, s, k) ==> Owned(b, s, k))
  }

  lemma AdvancesTransitive(a: Loop, b: Loop, c: Loop)
    requires Advances(a, b) && Advances(b, c)
    ensures Advances(a, c)
  {
  }

  // ---- the four calls of the loop -----------------------------------------------------

  lemma ExpressKept(hc: HostConfig, st: Loop, db: Dreamcatcher.Db, count: nat, actions: set<string>, session: string, key: string,
                    value: string, agent: string, tags: seq<string>)
    requires Reasonable(hc) && Kept(hc, st, db, count, count, actions) && Named(hc, key, count + 1)
    requires !hc.loop.blank(session)
    ensures var (next, r) := Express(hc.loop, st, session, key, value, agent, tags, 1.0, 1.0);
            && r.Ok? && Kept(hc, next, db, count + 1, count, actions) && Advances(st, next)
            && Expressed(next, session, key, value)
  {
    PartsOf(hc, st, db, count, count, actions);
    NewKeyIsNew(hc, st.phase.Keys, count, key);
    var next := Express(hc.loop, st, session, key, value, agent, tags, 1.0, 1.0).0;
    ExpressOutcome(hc, st, session, key, value, agent, tags);
    ExpressOrderly(hc, st, count, session, key, value, agent, tags);
    ExpressAdvances(st, next, session, key);
    ExpressSafe(hc, st, next, db, key);
    WholeOf(hc, next, db, count + 1, count, actions);
  }

  /** The key waits in derivation, for its session, with its value. */
  ghost predicate Expressed(st: Loop, session: string, key: string, value: string) {
    && Lookup(st.phase, key) == Some(Derivation) && Owned(st, session, key)
    && key in st.payload && st.payload[key].value == value
  }

  lemma ExpressOrderly(hc: HostConfig, st: Loop, count: nat, session: string, key: string, value: string, agent: string, tags: seq<string>)
    requires Reasonable(hc) && Orderly(hc, st, count) && Named(hc, key, count + 1)
    requires key !in st.phase && st.seized == {} && !hc.loop.blank(session)
    ensures Orderly(hc, Express(hc.loop, st, session, key, value, agent, tags, 1.0, 1.0).0, count + 1)
  {
    ExpressOutcome(hc, st, session, key, value, agent, tags);
    LoopRuns.ExpressKeepsInv(hc.loop, st, session, key, value, agent, tags, 1.0, 1.0);
    ExpressAgrees(hc.loop, st, session, key, value, agent, tags, 1.0, 1.0, true);
    NewKeyPlaced(hc, st.phase, count, key);
  }

  lemma NewKeyPlaced(hc: HostConfig, m: map<string, Phase>, count: nat, key: string)
    requires Reasonable(hc) && Placed(hc, m, count) && Named(hc, key, count + 1)
    ensures Placed(hc, m[key := Derivation], count + 1)
  {
    NewKeyIsNumbered(hc, m.Keys, count, key);
    assert m[key := Derivation].Keys == m.Keys + {key};
  }

  lemma ExpressAdvances(st: Loop, next: Loop, session: string, key: string)
    requires key !in st.phase && key !in st.payload && key !in Owners(st.log)
    requires next.phase == st.phase[key := Derivation]
    requires key in next.payload && next.payload == st.payload[key := next.payload[key]]
    requires Owners(next.log) == Owners(st.log)[key := session]
    ensures Advances(st, next)
  {
  }

  lemma ExpressOutcome(hc: HostConfig, st: Loop, session: string, key: string, value: string, agent: string, tags: seq<string>)
    requires key !in st.phase && st.seized == {} && !hc.loop.blank(session) && LoopRuns.Inv(hc.loop, st) && Agrees(st, true)
    ensures var (next, r) := Express(hc.loop, st, session, key, value, agent, tags, 1.0, 1.0);
            && r.Ok? && next.phase == st.phase[key := Derivation] && next.stutter == st.stutter && next.seized == {}
            && next.payload == st.payload[key := Payload(value, agent, tags, 1.0, 1.0, EstimateTokens(hc.loop, value))]
            && Owners(next.log) == Owners(st.log)[key := session]
            && key !in st.payload && key !in Owners(st.log)
  {
    var e := TransitionEvent(|st.log| + 1, key, None, Derivation, Forward, "express", agent, session, None);
    OwnersAppend(st.log, e);
  }

  lemma ExpressSafe(hc: HostConfig, st: Loop, next: Loop, db: Dreamcatcher.Db, key: string)
    requires Safe(hc, st, db) && key !in st.phase && key !in st.payload
    requires next.phase == st.phase[key := Derivation]
    requires key in next.payload && next.payload == st.payload[key := next.payload[key]]
    ensures Safe(hc, next, db)
  {
    if db.heap.clean && KeysApart(hc.d, next.phase.Keys) {
      var c :| Dreamcatcher.Depicts(hc.d, db, c) && AllStored(hc, st, c);
      assert AllStored(hc, next, c) by {
        forall k | k in next.phase && next.phase[k] == Integration ensures Stored(hc.d, next, c, hc.branch, k) {
          assert Stored(hc.d, st, c, hc.branch, k);
        }
      }
    }
  }

  /** A key moves on and nothing else of what the invariant speaks about changes. */
  ghost predicate MovesOn(a: Loop, b: Loop, key: string, to: Phase) {
    && key in a.phase && PhaseIndex(a.phase[key]) <= PhaseIndex(to) && (to == Attention || to == Integration)
    && b.phase == a.phase[key := to] && b.payload == a.payload && b.stutter == a.stutter && b.seized == a.seized
    && Owners(b.log) == Owners(a.log)
  }

  lemma MovesOnAdvances(a: Loop, b: Loop, key: string, to: Phase)
    requires MovesOn(a, b, key, to)
    ensures Advances(a, b)
  {
  }

  lemma MovedPlaced(hc: HostConfig, m: map<string, Phase>, count: nat, key: string, to: Phase)
    requires Placed(hc, m, count) && key in m && (to == Attention || to == Integration)
    ensures Placed(hc, m[key := to], count)
  {
    assert m[key := to].Keys == m.Keys;
  }

  // ---- admission ----------------------------------------------------------------------

  lemma AdmitOutcome(hc: HostConfig, st: Loop, session: string, key: string, actor: string)
    requires LoopRuns.Inv(hc.loop, st) && st.seized == {} && !hc.loop.blank(session) && Lookup(st.phase, key) == Some(Derivation)
    ensures var (next, r) := Admit(hc.loop, st, session, key, actor);
            && r.Ok?
            && (r.value == Admitted ==> MovesOn(st, next, key, Attention))
            && (r.value == Napped ==> next == st.(working := next.working))
  {
    var items := WorkingOf(st, session);
    if !Full(hc.loop, st, session, TokensOf(st, key)) {
      var held := Touch(st.(working := st.working[session := PutItem(items, Item(key, TokensOf(st, key)))]), session, key);
      TransitionOutcome(hc.loop, held, key, Attention, "admit", actor, session, false);
      TransitionOwners(hc.loop, held, key, Attention, "admit", actor, session, false);
    }
  }

  /** An admission of a session's own key in derivation succeeds or asks for a nap. */
  lemma AdmitKept(hc: HostConfig, st: Loop, db: Dreamcatcher.Db, count: nat, seen: nat, actions: set<string>,
                  session: string, key: string, actor: string)
    requires Kept(hc, st, db, count, seen, actions) && !hc.loop.blank(session)
    requires Lookup(st.phase, key) == Some(Derivation) && Owned(st, session, key)
    ensures var (next, r) := Admit(hc.loop, st, session, key, actor);
            && r.Ok? && Kept(hc, next, db, count, seen, actions) && Advances(st, next)
            && Lookup(next.phase, key) == Some(if r.value == Admitted then Attention else Derivation)
  {
    var (next, r) := Admit(hc.loop, st, session, key, actor);
    PartsOf(hc, st, db, count, seen, actions);
    AdmitOutcome(hc, st, session, key, actor);
    AdmitOrderly(hc, st, count, session, key, actor);
    SameDetectors(hc, actions, seen, st, next);
    AdmitSafe(hc, st, next, db, key);
    WholeOf(hc, next, db, count, seen, actions);
    if r.value == Admitted { MovesOnAdvances(st, next, key, Attention); } else { SameAdvances(st, next); }
  }

  lemma AdmitOrderly(hc: HostConfig, st: Loop, count: nat, session: string, key: string, actor: string)
    requires Orderly(hc, st, count) && st.seized == {} && !hc.loop.blank(session)
    requires Lookup(st.phase, key) == Some(Derivation) && Owned(st, session, key)
    ensures Orderly(hc, Admit(hc.loop, st, session, key, actor).0, count)
  {
    AdmitOutcome(hc, st, session, key, actor);
    LoopRuns.AdmitFacts(hc.loop, st, session, key, actor);
    AdmitAgrees(hc.loop, st, session, key, actor, true);
    MovedPlaced(hc, st.phase, count, key, Attention);
  }

  lemma SameDetectors(hc: HostConfig, actions: set<string>, seen: nat, st: Loop, next: Loop)
    requires AllUnmoved(hc, actions, seen, st) && next.stutter == st.stutter && next.seized == st.seized
    ensures AllUnmoved(hc, actions, seen, next)
  {
  }

  lemma SameAdvances(st: Loop, next: Loop)
    requires next.phase == st.phase && next.payload == st.payload && next.log == st.log
    ensures Advances(st, next)
  {
  }

  lemma AdmitSafe(hc: HostConfig, st: Loop, next: Loop, db: Dreamcatcher.Db, key: string)
    requires Safe(hc, st, db) && key in st.phase && next.payload == st.payload
    requires next.phase == st.phase || next.phase == st.phase[key := Attention]
    ensures Safe(hc, next, db)
  {
    assert next.phase.Keys == st.phase.Keys;
    if db.heap.clean && KeysApart(hc.d, next.phase.Keys) {
      var c :| Dreamcatcher.Depicts(hc.d, db, c) && AllStored(hc, st, c);
      forall k | k in next.phase && next.phase[k] == Integration ensures Stored(hc.d, next, c, hc.branch, k) {
        assert Stored(hc.d, st, c, hc.branch, k);
      }
      assert AllStored(hc, next, c);
    }
  }

  // ---- impression ---------------------------------------------------------------------

  lemma ImpressOutcome(hc: HostConfig, st: Loop, db: Dreamcatcher.Db, session: string, key: string, actor: string, now: string)
    requires st.seized == {} && !hc.loop.blank(session) && key in st.payload && Lookup(st.phase, key) == Some(Attention)
    ensures var (next, db', r) := Impress(hc.loop, hc.d, st, db, session, key, actor, hc.branch, now);
            var (stored, res) := Dreamcatcher.Remember(hc.d, db, ImpressInput(st.payload[key], key, actor, hc.branch), now);
            && db' == stored && (r.Ok? <==> res.Ok?)
            && (r.Ok? ==> MovesOn(st, next, key, Integration))
            && (r.Err? ==> next == st)
  {
    var freed := Touch(Release(st, session, key), session, key);
    ImpressAnswers(hc, st, db, session, key, actor, now, freed);
    if Transition(hc.loop, freed, key, Integration, "impress", actor, session, false).Ok? {
      FreedMovesOn(hc, st, freed, Transition(hc.loop, freed, key, Integration, "impress", actor, session, false).value, session, key, "impress", actor);
    }
  }

  /** An impression in attention does what the store and one transition say. */
  lemma ImpressAnswers(hc: HostConfig, st: Loop, db: Dreamcatcher.Db, session: string, key: string, actor: string, now: string, freed: Loop)
    requires st.seized == {} && !hc.loop.blank(session) && key in st.payload && Lookup(st.phase, key) == Some(Attention)
    requires freed == Touch(Release(st, session, key), session, key)
    ensures var (stored, res) := Dreamcatcher.Remember(hc.d, db, ImpressInput(st.payload[key], key, actor, hc.branch), now);
            var moved := Transition(hc.loop, freed, key, Integration, "impress", actor, session, false);
            && moved.Ok?
            && Impress(hc.loop, hc.d, st, db, session, key, actor, hc.branch, now)
               == if res.Err? then (st, stored, Err(StoreFailed(res.error))) else (moved.value, stored, Ok(()))
  {
    TransitionOutcome(hc.loop, freed, key, Integration, "impress", actor, session, false);
  }

  lemma FreedMovesOn(hc: HostConfig, st: Loop, freed: Loop, next: Loop, session: string, key: string, reason: string, actor: string)
    requires Lookup(st.phase, key) == Some(Attention) && freed == Touch(Release(st, session, key), session, key)
    requires Transition(hc.loop, freed, key, Integration, reason, actor, session, false) == Ok(next)
    ensures MovesOn(st, next, key, Integration)
  {
    TransitionOutcome(hc.loop, freed, key, Integration, reason, actor, session, false);
    TransitionOwners(hc.loop, freed, key, Integration, reason, actor, session, false);
    assert freed.log == st.log && next.payload == st.payload;
  }

  /** Writing one key through stores its payload, and disturbs no key whose path is another. */
  lemma ImpressSafe(hc: HostConfig, st: Loop, next: Loop, db: Dreamcatcher.Db, key: string, actor: string, now: string, count: nat)
    requires Reasonable(hc) && Safe(hc, st, db) && Placed(hc, st.phase, count) && key in st.payload && key in st.phase
    requires var (db', res) := Dreamcatcher.Remember(hc.d, db, ImpressInput(st.payload[key], key, actor, hc.branch), now);
             if res.Ok? then MovesOn(st, next, key, Integration) else next == st
    ensures Safe(hc, next, Dreamcatcher.Remember(hc.d, db, ImpressInput(st.payload[key], key, actor, hc.branch), now).0)
  {
    var input := ImpressInput(st.payload[key], key, actor, hc.branch);
    var db' := Dreamcatcher.Remember(hc.d, db, input, now).0;
    if db'.heap.clean && KeysApart(hc.d, next.phase.Keys) {
      CleanBefore(hc, db, input, now);
      assert next.phase.Keys == st.phase.Keys;
      var c :| Dreamcatcher.Depicts(hc.d, db, c) && AllStored(hc, st, c);
      ImpressBacked(hc, st, next, db, c, key, input, now, count);
    }
  }

  lemma CleanBefore(hc: HostConfig, db: Dreamcatcher.Db, input: Dreamcatcher.Input, now: string)
    ensures Dreamcatcher.Remember(hc.d, db, input, now).0.heap.clean ==> db.heap.clean
  {
    Dreamcatcher.StepIsCleanOnlyFromClean(hc.d, db, Dreamcatcher.Write(input, now));
  }

  lemma ImpressBacked(hc: HostConfig, st: Loop, next: Loop, db: Dreamcatcher.Db, c: Dreamcatcher.Picture, key: string,
                      input: Dreamcatcher.Input, now: string, count: nat)
    requires Reasonable(hc) && Dreamcatcher.Depicts(hc.d, db, c) && AllStored(hc, st, c)
    requires Placed(hc, st.phase, count) && KeysApart(hc.d, st.phase.Keys)
    requires key in st.payload && input.key == key && input.value == st.payload[key].value && input.branch == hc.branch
    requires Dreamcatcher.Remember(hc.d, db, input, now).0.heap.clean
    requires if Dreamcatcher.Remember(hc.d, db, input, now).1.Ok? then MovesOn(st, next, key, Integration) else next == st
    ensures Backed(hc, next, Dreamcatcher.Remember(hc.d, db, input, now).0)
  {
    Dreamcatcher.RememberRefines(hc.d, db, c, input, now);
    if Dreamcatcher.Remember(hc.d, db, input, now).1.Ok? {
      WriteDurable(hc, st, next, c, key, input, now, count);
    }
    assert AllStored(hc, next, Dreamcatcher.Recorded(hc.d, c, input, now));
  }

  lemma WriteDurable(hc: HostConfig, st: Loop, next: Loop, c: Dreamcatcher.Picture, key: string,
                     input: Dreamcatcher.Input, now: string, count: nat)
    requires Reasonable(hc) && AllStored(hc, st, c) && Placed(hc, st.phase, count) && KeysApart(hc.d, st.phase.Keys)
    requires key in st.payload && MovesOn(st, next, key, Integration)
    requires input.key == key && input.value == st.payload[key].value && input.branch == hc.branch
    requires Dreamcatcher.Accepts(hc.d, c, input, now)
    ensures AllStored(hc, next, Dreamcatcher.Recorded(hc.d, c, input, now))
  {
    var r := Dreamcatcher.BuildRecord(hc.d, input, now).value;
    Dreamcatcher.BuiltRecordIsWellMade(hc.d, input, now);
    forall k | k in next.phase && next.phase[k] == Integration
      ensures Stored(hc.d, next, Dreamcatcher.Recorded(hc.d, c, input, now), hc.branch, k)
    {
      if k != key {
        assert Stored(hc.d, st, c, hc.branch, k);
        PathsDiffer(hc, st.phase.Keys, count, k, key);
      }
    }
  }

  lemma PathsDiffer(hc: HostConfig, keys: set<string>, count: nat, k1: string, k2: string)
    requires Reasonable(hc) && Numbered(hc, keys, count) && KeysApart(hc.d, keys)
    requires k1 in keys && k2 in keys && k1 != k2
    ensures hc.d.PathOf(hc.d.nfc(k1)) != hc.d.PathOf(hc.d.nfc(k2))
  {
    var m: nat :| m <= count && Named(hc, k1, m);
    var n: nat :| n <= count && Named(hc, k2, n);
    NamesTell(hc, k1, m, k2, n);
    if m == n { assert ShareNumber(hc, k1, k2); }
  }

  lemma ImpressKept(hc: HostConfig, st: Loop, db: Dreamcatcher.Db, count: nat, seen: nat, actions: set<string>,
                    session: string, key: string, actor: string, now: string)
    requires Reasonable(hc) && Kept(hc, st, db, count, seen, actions) && !hc.loop.blank(session)
    requires Lookup(st.phase, key) == Some(Attention) && Owned(st, session, key)
    ensures var (next, db', r) := Impress(hc.loop, hc.d, st, db, session, key, actor, hc.branch, now);
            && Kept(hc, next, db', count, seen, actions) && Advances(st, next)
            && (r.Ok? ==> next.phase == st.phase[key := Integration]) && (r.Err? ==> next == st)
  {
    var (next, db', r) := Impress(hc.loop, hc.d, st, db, session, key, actor, hc.branch, now);
    PartsOf(hc, st, db, count, seen, actions);
    PayloadKnown(hc, st, key);
    ImpressOutcome(hc, st, db, session, key, actor, now);
    ImpressSafe(hc, st, next, db, key, actor, now, count);
    if r.Ok? {
      ImpressOrderly(hc, st, db, count, session, key, actor, now);
      SameDetectors(hc, actions, seen, st, next);
      MovesOnAdvances(st, next, key, Integration);
    } else {
      SameAdvances(st, next);
    }
    WholeOf(hc, next, db', count, seen, actions);
  }

  lemma PayloadKnown(hc: HostConfig, st: Loop, key: string)
    requires LoopRuns.Inv(hc.loop, st) && key in st.phase
    ensures key in st.payload
  {
  }

  lemma ImpressOrderly(hc: HostConfig, st: Loop, db: Dreamcatcher.Db, count: nat, session: string, key: string, actor: string, now: string)
    requires Orderly(hc, st, count) && st.seized == {} && !hc.loop.blank(session)
    requires Lookup(st.phase, key) == Some(Attention) && Owned(st, session, key)
    requires Impress(hc.loop, hc.d, st, db, session, key, actor, hc.branch, now).2.Ok?
    ensures Orderly(hc, Impress(hc.loop, hc.d, st, db, session, key, actor, hc.branch, now).0, count)
  {
    PayloadKnown(hc, st, key);
    ImpressOutcome(hc, st, db, session, key, actor, now);
    LoopRuns.ImpressKeepsInv(hc.loop, hc.d, st, db, session, key, actor, hc.branch, now);
    ImpressAgrees(hc.loop, hc.d, LoopRuns.World(st, db), session, key, actor, hc.branch, now, true);
    MovedPlaced(hc, st.phase, count, key, Integration);
  }

  // ---- observation --------------------------------------------------------------------

  lemma ObserveKept(hc: HostConfig, st: Loop, db: Dreamcatcher.Db, seen: nat, n: nat, actions: set<string>,
                    session: string, action: string, actor: string)
    requires Kept(hc, st, db, n, seen, actions) && !hc.loop.blank(session)
    requires seen < n && action in actions && Apart(hc, actions, n)
    ensures var (next, r) := ObserveAction(hc.loop, st, session, hc.actionHash(action, n), actor);
            && r == Ok(None) && Kept(hc, next, db, n, n, actions) && Advances(st, next) && next.phase == st.phase
  {
    var hash := hc.actionHash(action, n);
    var next := ObserveAction(hc.loop, st, session, hash, actor).0;
    PartsOf(hc, st, db, n, seen, actions);
    NewActionUnmoved(hc, st, seen, n, actions, session, action, actor);
    NotedOrderly(hc, st, next, n, session, hash, actor);
    NotedSafe(hc, st, next, db);
    SameAdvances(st, next);
    WholeOf(hc, next, db, n, n, actions);
  }

  /** A new numbered action is only noted. */
  lemma NewActionUnmoved(hc: HostConfig, st: Loop, seen: nat, n: nat, actions: set<string>, session: string, action: string, actor: string)
    requires AllUnmoved(hc, actions, seen, st) && !hc.loop.blank(session)
    requires seen < n && action in actions && Apart(hc, actions, n)
    ensures var (next, r) := ObserveAction(hc.loop, st, session, hc.actionHash(action, n), actor);
            r == Ok(None) && next == st.(stutter := next.stutter) && AllUnmoved(hc, actions, n, next)
  {
    NewActionPasses(hc, actions, seen, n, action, StutterOf(st, session));
    LoopRuns.ObserveQuietly(hc.loop, st, session, hc.actionHash(action, n), actor);
    UnmovedLater(hc, actions, seen, n, st);
  }

  lemma NotedOrderly(hc: HostConfig, st: Loop, next: Loop, count: nat, session: string, hash: string, actor: string)
    requires Orderly(hc, st, count) && next == ObserveAction(hc.loop, st, session, hash, actor).0
    requires next == st.(stutter := next.stutter)
    ensures Orderly(hc, next, count)
  {
    LoopRuns.ObserveKeepsInv(hc.loop, st, session, hash, actor);
    QuietStep(st, next, session, true);
  }

  lemma NotedSafe(hc: HostConfig, st: Loop, next: Loop, db: Dreamcatcher.Db)
    requires Safe(hc, st, db) && next == st.(stutter := next.stutter)
    ensures Safe(hc, next, db)
  {
    if db.heap.clean && KeysApart(hc.d, next.phase.Keys) {
      var c :| Dreamcatcher.Depicts(hc.d, db, c) && AllStored(hc, st, c);
      forall k | k in next.phase && next.phase[k] == Integration ensures Stored(hc.d, next, c, hc.branch, k) {
        assert Stored(hc.d, st, c, hc.branch, k);
      }
      assert AllStored(hc, next, c);
    }
  }

  // ---- dreams -------------------------------------------------------------------------

  lemma {:induction false} AttentionKeysHeld(st: Loop, items: seq<Item>)
    ensures forall k :: k in AttentionKeys(st, items) ==> Lookup(st.phase, k) == Some(Attention) && exists item :: item in items && item.key == k
    ensures forall item :: item in items && Lookup(st.phase, item.key) == Some(Attention) ==> item.key in AttentionKeys(st, items)
  {
    if items != [] {
      var front, last := items[..|items| - 1], items[|items| - 1];
      AttentionKeysHeld(st, front);
      assert items == front + [last];
    }
  }

  ghost predicate AllOwned(st: Loop, session: string, keys: seq<string>) {
    forall k :: k in keys ==> k in st.phase && Owned(st, session, k)
  }

  lemma AttentionKeysOwned(st: Loop, session: string)
    requires Agrees(st, true)
    ensures AllOwned(st, session, AttentionKeys(st, WorkingOf(st, session)))
  {
    var keys := AttentionKeys(st, WorkingOf(st, session));
    AttentionKeysHeld(st, WorkingOf(st, session));
    forall k | k in keys ensures k in st.phase && Owned(st, session, k) {
      assert Holds(st, session, k);
    }
  }

  ghost predicate AllIntegrated(st: Loop, keys: seq<string>) {
    forall k :: k in keys ==> Lookup(st.phase, k) == Some(Integration)
  }

  lemma ImpressOne(hc: HostConfig, st: Loop, db: Dreamcatcher.Db, count: nat, seen: nat, actions: set<string>,
                   session: string, key: string, actor: string, now: string)
    requires Reasonable(hc) && Kept(hc, st, db, count, seen, actions) && !hc.loop.blank(session)
    requires key in st.phase && Owned(st, session, key)
    ensures var (next, db', r) := Impress(hc.loop, hc.d, st, db, session, key, actor, hc.branch, now);
            && Kept(hc, next, db', count, seen, actions) && Advances(st, next)
            && (r.Ok? ==> Lookup(next.phase, key) == Some(Integration))
  {
    if st.phase[key] == Attention {
      ImpressKept(hc, st, db, count, seen, actions, session, key, actor, now);
    } else {
      PartsOf(hc, st, db, count, seen, actions);
      ImpressRefused(hc, st, db, session, key, actor, now);
      SameAdvances(st, st);
    }
  }

  lemma ImpressRefused(hc: HostConfig, st: Loop, db: Dreamcatcher.Db, session: string, key: string, actor: string, now: string)
    requires st.seized == {} && !hc.loop.blank(session) && Lookup(st.phase, key) != Some(Attention)
    ensures Impress(hc.loop, hc.d, st, db, session, key, actor, hc.branch, now) == (st, db, Err(WrongPhase))
  {
  }

  /** Impressing a list of a session's own keys keeps the invariant, however far it gets. */
  lemma {:induction false} ImpressAllKept(hc: HostConfig, st: Loop, db: Dreamcatcher.Db, count: nat, seen: nat, actions: set<string>,
                                          session: string, keys: seq<string>, now: string)
    requires Reasonable(hc) && Kept(hc, st, db, count, seen, actions) && !hc.loop.blank(session)
    requires AllOwned(st, session, keys)
    ensures var (next, db', _) := ImpressAll(hc, st, db, session, keys, now); Kept(hc, next, db', count, seen, actions)
    decreases |keys|
  {
    if keys != [] {
      ImpressOne(hc, st, db, count, seen, actions, session, keys[0], hc.actor, now);
      var (next, db', r) := Impress(hc.loop, hc.d, st, db, session, keys[0], hc.actor, hc.branch, now);
      if r.Ok? {
        OwnedLater(st, next, session, keys);
        ImpressAllKept(hc, next, db', count, seen, actions, session, keys[1..], now);
      }
    }
  }

  lemma {:induction false} ImpressAllAdvances(hc: HostConfig, st: Loop, db: Dreamcatcher.Db, count: nat, seen: nat, actions: set<string>,
                                              session: string, keys: seq<string>, now: string)
    requires Reasonable(hc) && Kept(hc, st, db, count, seen, actions) && !hc.loop.blank(session)
    requires AllOwned(st, session, keys)
    ensures var (next, _, r) := ImpressAll(hc, st, db, session, keys, now); Advances(st, next) && (r.Ok? ==> AllIntegrated(next, keys))
    decreases |keys|
  {
    if keys == [] {
      SameAdvances(st, st);
    } else {
      ImpressOne(hc, st, db, count, seen, actions, session, keys[0], hc.actor, now);
      var (next, db', r) := Impress(hc.loop, hc.d, st, db, session, keys[0], hc.actor, hc.branch, now);
      if r.Ok? {
        OwnedLater(st, next, session, keys);
        ImpressAllAdvances(hc, next, db', count, seen, actions, session, keys[1..], now);
        RestKept(st, next, ImpressAll(hc, next, db', session, keys[1..], now).0, keys);
      }
    }
  }

  lemma RestKept(st: Loop, next: Loop, last: Loop, keys: seq<string>)
    requires keys != [] && Lookup(next.phase, keys[0]) == Some(Integration)
    requires Advances(st, next) && Advances(next, last)
    ensures Advances(st, last) && (AllIntegrated(last, keys[1..]) ==> AllIntegrated(last, keys))
  {
    AdvancesTransitive(st, next, last);
    assert keys == [keys[0]] + keys[1..];
  }

  lemma OwnedLater(st: Loop, next: Loop, session: string, keys: seq<string>)
    requires AllOwned(st, session, keys) && Advances(st, next) && keys != []
    ensures AllOwned(next, session, keys[1..])
  {
  }

  /** A dream keeps the invariant; one that succeeds leaves nothing of what its session had in
      attention behind: all of it is integrated. */
  lemma DreamKept(hc: HostConfig, h: Host, seen: nat, actions: set<string>, session: string,
                  state: Option<(int, bool)>, t: Times, now: string)
    requires Reasonable(hc) && Scheduler.Housed(h.sched.reg) && Kept(hc, h.loop, h.db, h.count, seen, actions) && !hc.loop.blank(session)
    ensures var (next, r) := Dream(hc, h, session, state, t, now);
            && next.count == h.count && Kept(hc, next.loop, next.db, next.count, seen, actions) && Advances(h.loop, next.loop)
            && (r.Ok? && r.value.Dreamed? ==> r.value.keys == AttentionKeys(h.loop, WorkingOf(h.loop, session)) && AllIntegrated(next.loop, r.value.keys))
  {
    var keys := AttentionKeys(h.loop, WorkingOf(h.loop, session));
    PartsOf(hc, h.loop, h.db, h.count, seen, actions);
    AttentionKeysOwned(h.loop, session);
    ImpressAllKept(hc, h.loop, h.db, h.count, seen, actions, session, keys, now);
    ImpressAllAdvances(hc, h.loop, h.db, h.count, seen, actions, session, keys, now);
    SameAdvances(h.loop, h.loop);
    DreamCases(hc, h, session, state, t, now);
  }

  lemma DreamCases(hc: HostConfig, h: Host, session: string, state: Option<(int, bool)>, t: Times, now: string)
    requires Scheduler.Housed(h.sched.reg)
    ensures var (next, r) := Dream(hc, h, session, state, t, now); DreamCase(hc, h, session, now, next, r)
  {
    var seen := ObserveIdle(h.sched, state, t.observe);
    if IdleScheduler.ErrorOf(seen) == None {
      var promo := IdleScheduler.TryPromote(seen.s, {DreamCapability}, t.promote);
      if IdleScheduler.ErrorOf(promo) == None && promo.leased.Some? {
        UnderCase(hc, h, promo.s, session, promo.leased.value.id, t.settle, now);
      }
    }
  }

  /** A dream impresses what is in attention or leaves loop and store alone. */
  ghost predicate DreamCase(hc: HostConfig, h: Host, session: string, now: string, next: Host, r: Result<DreamReply, HostError>) {
    var keys := AttentionKeys(h.loop, WorkingOf(h.loop, session));
    var (loop, db, done) := ImpressAll(hc, h.loop, h.db, session, keys, now);
    && next.count == h.count
    && (next == h.(sched := next.sched) || next == h.(sched := next.sched, loop := loop, db := db))
    && (r.Ok? && r.value.Dreamed? ==> r.value.keys == keys && done.Ok? && next.loop == loop)
  }

  lemma UnderCase(hc: HostConfig, h: Host, sched: IdleScheduler.Sched, session: string, lease: nat, time: int, now: string)
    requires Scheduler.Housed(sched.reg)
    ensures var (next, r) := DreamUnder(hc, h.(sched := sched), session, lease, time, now); DreamCase(hc, h, session, now, next, r)
  {
    var keys := AttentionKeys(h.loop, WorkingOf(h.loop, session));
    SettleCase(sched, lease, ImpressAll(hc, h.loop, h.db, session, keys, now).2, keys, time);
  }

  lemma SettleCase(sched: IdleScheduler.Sched, lease: nat, r: Result<(), LoopError>, keys: seq<string>, time: int)
    ensures var reply := SettleDream(sched, lease, r, keys, time).1; reply.Ok? ==> reply.value == Dreamed(keys) && r.Ok?
  {
  }

  lemma ImpressLeaves(hc: HostConfig, st: Loop, db: Dreamcatcher.Db, session: string, k: string, now: string, key: string)
    requires Lookup(st.phase, key) == Some(Derivation)
    ensures Lookup(Impress(hc.loop, hc.d, st, db, session, k, hc.actor, hc.branch, now).0.phase, key) == Some(Derivation)
  {
    var freed := Touch(Release(st, session, k), session, k);
    TransitionOutcome(hc.loop, freed, k, Integration, "impress", hc.actor, session, false);
  }

  lemma {:induction false} ImpressAllLeaves(hc: HostConfig, st: Loop, db: Dreamcatcher.Db, session: string,
                                            keys: seq<string>, now: string, key: string)
    requires Lookup(st.phase, key) == Some(Derivation)
    ensures Lookup(ImpressAll(hc, st, db, session, keys, now).0.phase, key) == Some(Derivation)
    decreases |keys|
  {
    if keys != [] {
      ImpressLeaves(hc, st, db, session, keys[0], now, key);
      var (next, db', r) := Impress(hc.loop, hc.d, st, db, session, keys[0], hc.actor, hc.branch, now);
      if r.Ok? { ImpressAllLeaves(hc, next, db', session, keys[1..], now, key); }
    }
  }

  /** A dream leaves alone what is still in derivation. */
  lemma DreamLeavesDerivation(hc: HostConfig, h: Host, session: string, state: Option<(int, bool)>, t: Times, now: string, key: string)
    requires Scheduler.Housed(h.sched.reg) && Lookup(h.loop.phase, key) == Some(Derivation)
    ensures Lookup(Dream(hc, h, session, state, t, now).0.loop.phase, key) == Some(Derivation)
  {
    DreamCases(hc, h, session, state, t, now);
    ImpressAllLeaves(hc, h.loop, h.db, session, AttentionKeys(h.loop, WorkingOf(h.loop, session)), now, key);
  }

  // ---- turns --------------------------------------------------------------------------

  /** Where a turn's key is, by the status that the turn reports. */
  predicate PhaseOfStatus(status: Status, p: Phase) {
    match status
    case StatusNap => p == Derivation
    case StatusAdmitted => p == Attention || p == Integration
    case StatusIntegrated => p == Integration
  }

  ghost predicate TurnKept(hc: HostConfig, h: Host, next: Host, actions: set<string>) {
    next.count == h.count && Kept(hc, next.loop, next.db, next.count, next.count, actions) && Advances(h.loop, next.loop)
  }

  /** What a turn's steps guarantee: the invariant, no key moved back, and a truthful reply. */
  ghost predicate TurnDone(hc: HostConfig, h: Host, key: string, next: Host, r: Result<TurnReply, HostError>, actions: set<string>) {
    match r
    case Err(_) => TurnKept(hc, h, next, actions)
    case Ok(reply) =>
      && TurnKept(hc, h, next, actions)
      && reply.key == key && key in next.loop.phase && PhaseOfStatus(reply.status, next.loop.phase[key])
  }

  lemma KeptLater(hc: HostConfig, st: Loop, db: Dreamcatcher.Db, count: nat, seen: nat, later: nat, actions: set<string>)
    requires Kept(hc, st, db, count, seen, actions) && seen <= later
    ensures Kept(hc, st, db, count, later, actions)
  {
    PartsOf(hc, st, db, count, seen, actions);
    UnmovedLater(hc, actions, seen, later, st);
    WholeOf(hc, st, db, count, later, actions);
  }

  lemma ShowKept(hc: HostConfig, h: Host, turn: Turn, key: string, clock: Clock, dreamed: bool, status: Status, actions: set<string>)
    requires Scheduler.Housed(h.sched.reg) && !hc.loop.blank(turn.session) && h.count > 0
    requires Kept(hc, h.loop, h.db, h.count, h.count - 1, actions) && turn.action in actions && Apart(hc, actions, h.count)
    requires key in h.loop.phase && PhaseOfStatus(status, h.loop.phase[key])
    ensures var (next, r) := ShowAction(hc, h, turn, key, clock, dreamed, status);
            TurnDone(hc, h, key, next, r, actions)
  {
    ObserveKept(hc, h.loop, h.db, h.count - 1, h.count, actions, turn.session, turn.action, ActorOf(hc, turn));
  }

  /** A step that advances, before what a turn still has to do. */
  lemma DoneAfter(hc: HostConfig, h: Host, middle: Host, key: string, next: Host, r: Result<TurnReply, HostError>, actions: set<string>)
    requires middle.count == h.count && Advances(h.loop, middle.loop)
    ensures TurnDone(hc, middle, key, next, r, actions) ==> TurnDone(hc, h, key, next, r, actions)
  {
    if TurnDone(hc, middle, key, next, r, actions) { AdvancesTransitive(h.loop, middle.loop, next.loop); }
  }

  lemma StoppedEarly(hc: HostConfig, h: Host, key: string, next: Host, error: HostError, actions: set<string>)
    requires next.count == h.count && h.count > 0 && Kept(hc, next.loop, next.db, next.count, next.count - 1, actions) && Advances(h.loop, next.loop)
    ensures TurnDone(hc, h, key, next, Err(error), actions)
  {
    KeptLater(hc, next.loop, next.db, next.count, next.count - 1, next.count, actions);
  }

  lemma FinishKept(hc: HostConfig, h: Host, turn: Turn, key: string, clock: Clock, dreamed: bool, actions: set<string>)
    requires Reasonable(hc) && Scheduler.Housed(h.sched.reg) && !hc.loop.blank(turn.session) && h.count > 0
    requires Kept(hc, h.loop, h.db, h.count, h.count - 1, actions) && turn.action in actions && Apart(hc, actions, h.count)
    requires Lookup(h.loop.phase, key) == Some(Attention) && Owned(h.loop, turn.session, key)
    ensures var (next, r) := FinishTurn(hc, h, turn, key, clock, dreamed); TurnDone(hc, h, key, next, r, actions)
  {
    if Persists(hc, turn) {
      ImpressKept(hc, h.loop, h.db, h.count, h.count - 1, actions, turn.session, key, ActorOf(hc, turn), clock.now);
      var (loop, db, r) := Impress(hc.loop, hc.d, h.loop, h.db, turn.session, key, ActorOf(hc, turn), hc.branch, clock.now);
      StoredKept(hc, h, h.(loop := loop, db := db), r, turn, key, clock, dreamed, actions);
    } else {
      ShowKept(hc, h, turn, key, clock, dreamed, StatusAdmitted, actions);
    }
  }

  /** After the write-through of a turn, whether it succeeded or not. */
  lemma StoredKept(hc: HostConfig, h: Host, next: Host, r: Result<(), LoopError>, turn: Turn, key: string,
                   clock: Clock, dreamed: bool, actions: set<string>)
    requires Scheduler.Housed(next.sched.reg) && !hc.loop.blank(turn.session) && next.count == h.count > 0
    requires Kept(hc, next.loop, next.db, next.count, next.count - 1, actions) && turn.action in actions && Apart(hc, actions, next.count)
    requires Advances(h.loop, next.loop) && (r.Ok? ==> Lookup(next.loop.phase, key) == Some(Integration))
    ensures var (last, reply) := if r.Err? then (next, Err(LoopFailed(r.error))) else ShowAction(hc, next, turn, key, clock, dreamed, StatusIntegrated);
            TurnDone(hc, h, key, last, reply, actions)
  {
    if r.Ok? {
      ShowKept(hc, next, turn, key, clock, dreamed, StatusIntegrated, actions);
      var (last, reply) := ShowAction(hc, next, turn, key, clock, dreamed, StatusIntegrated);
      DoneAfter(hc, h, next, key, last, reply, actions);
    } else {
      StoppedEarly(hc, h, key, next, LoopFailed(r.error), actions);
    }
  }

  lemma AdmittedKept(hc: HostConfig, h: Host, next: Host, turn: Turn, key: string, clock: Clock, dreamed: bool, actions: set<string>)
    requires Reasonable(hc) && Scheduler.Housed(next.sched.reg) && !hc.loop.blank(turn.session) && next.count == h.count > 0
    requires Kept(hc, next.loop, next.db, next.count, next.count - 1, actions) && turn.action in actions && Apart(hc, actions, next.count)
    requires Lookup(next.loop.phase, key) == Some(Attention) && Owned(next.loop, turn.session, key) && Advances(h.loop, next.loop)
    ensures var (last, reply) := FinishTurn(hc, next, turn, key, clock, dreamed); TurnDone(hc, h, key, last, reply, actions)
  {
    FinishKept(hc, next, turn, key, clock, dreamed, actions);
    var (last, reply) := FinishTurn(hc, next, turn, key, clock, dreamed);
    DoneAfter(hc, h, next, key, last, reply, actions);
  }

  lemma NappedKept(hc: HostConfig, h: Host, next: Host, key: string, actions: set<string>)
    requires next.count == h.count > 0 && Kept(hc, next.loop, next.db, next.count, next.count - 1, actions) && Advances(h.loop, next.loop)
    requires Lookup(next.loop.phase, key) == Some(Derivation)
    ensures TurnDone(hc, h, key, next, Ok(TurnReply(StatusNap, key)), actions)
  {
    KeptLater(hc, next.loop, next.db, next.count, next.count - 1, next.count, actions);
  }

  lemma AgainKept(hc: HostConfig, h: Host, turn: Turn, key: string, clock: Clock, dreamt: DreamReply, actions: set<string>)
    requires Reasonable(hc) && Scheduler.Housed(h.sched.reg) && !hc.loop.blank(turn.session) && h.count > 0
    requires Kept(hc, h.loop, h.db, h.count, h.count - 1, actions) && turn.action in actions && Apart(hc, actions, h.count)
    requires Lookup(h.loop.phase, key) == Some(Derivation) && Owned(h.loop, turn.session, key)
    ensures var (next, r) := AdmitAgain(hc, h, turn, key, clock, dreamt); TurnDone(hc, h, key, next, r, actions)
  {
    AdmitKept(hc, h.loop, h.db, h.count, h.count - 1, actions, turn.session, key, ActorOf(hc, turn));
    var (loop, r) := Admit(hc.loop, h.loop, turn.session, key, ActorOf(hc, turn));
    AnsweredKept(hc, h, h.(loop := loop), r.value, turn, key, clock, dreamt.Dreamed?, actions);
  }

  /** After the second try: the turn naps, or it is finished. */
  lemma AnsweredKept(hc: HostConfig, h: Host, next: Host, answer: Admission, turn: Turn, key: string, clock: Clock,
                     dreamed: bool, actions: set<string>)
    requires Reasonable(hc) && Scheduler.Housed(next.sched.reg) && !hc.loop.blank(turn.session) && next.count == h.count > 0
    requires Kept(hc, next.loop, next.db, next.count, next.count - 1, actions) && turn.action in actions && Apart(hc, actions, next.count)
    requires Lookup(next.loop.phase, key) == Some(if answer == Admitted then Attention else Derivation)
    requires Owned(next.loop, turn.session, key) && Advances(h.loop, next.loop)
    ensures var (last, reply) := if answer == Napped then (next, Ok(TurnReply(StatusNap, key))) else FinishTurn(hc, next, turn, key, clock, dreamed);
            TurnDone(hc, h, key, last, reply, actions)
  {
    if answer == Napped {
      NappedKept(hc, h, next, key, actions);
    } else {
      AdmittedKept(hc, h, next, turn, key, clock, dreamed, actions);
    }
  }

  lemma AdmitTurnKept(hc: HostConfig, h: Host, turn: Turn, key: string, clock: Clock, actions: set<string>)
    requires Reasonable(hc) && Scheduler.Housed(h.sched.reg) && !hc.loop.blank(turn.session) && h.count > 0
    requires Kept(hc, h.loop, h.db, h.count, h.count - 1, actions) && turn.action in actions && Apart(hc, actions, h.count)
    requires Lookup(h.loop.phase, key) == Some(Derivation) && Owned(h.loop, turn.session, key)
    ensures var (next, r) := AdmitTurn(hc, h, turn, key, clock); TurnDone(hc, h, key, next, r, actions)
  {
    AdmitKept(hc, h.loop, h.db, h.count, h.count - 1, actions, turn.session, key, ActorOf(hc, turn));
    var (loop, r) := Admit(hc.loop, h.loop, turn.session, key, ActorOf(hc, turn));
    TriedKept(hc, h, h.(loop := loop), r.value, turn, key, clock, actions);
  }

  /** After the first try: the turn is finished, or it dreams and tries again. */
  lemma TriedKept(hc: HostConfig, h: Host, next: Host, answer: Admission, turn: Turn, key: string, clock: Clock, actions: set<string>)
    requires Reasonable(hc) && Scheduler.Housed(next.sched.reg) && !hc.loop.blank(turn.session) && next.count == h.count > 0
    requires Kept(hc, next.loop, next.db, next.count, next.count - 1, actions) && turn.action in actions && Apart(hc, actions, next.count)
    requires Lookup(next.loop.phase, key) == Some(if answer == Admitted then Attention else Derivation)
    requires Owned(next.loop, turn.session, key) && Advances(h.loop, next.loop)
    ensures var (last, reply) := if answer == Admitted then FinishTurn(hc, next, turn, key, clock, false) else AfterNap(hc, next, turn, key, clock);
            TurnDone(hc, h, key, last, reply, actions)
  {
    if answer == Admitted {
      AdmittedKept(hc, h, next, turn, key, clock, false, actions);
    } else {
      NapKept(hc, h, next, turn, key, clock, actions);
    }
  }

  /** The rest of a turn that has been asked to nap. */
  function AfterNap(hc: HostConfig, h: Host, turn: Turn, key: string, clock: Clock): (Host, Result<TurnReply, HostError>)
    requires Scheduler.Housed(h.sched.reg)
  {
    var (dreamer, dreamt) := Dream(hc, h, turn.session, Some((0, false)), clock.first, clock.now);
    if dreamt.Err? then (dreamer, Err(dreamt.error)) else AdmitAgain(hc, dreamer, turn, key, clock, dreamt.value)
  }

  lemma NapKept(hc: HostConfig, h: Host, next: Host, turn: Turn, key: string, clock: Clock, actions: set<string>)
    requires Reasonable(hc) && Scheduler.Housed(next.sched.reg) && !hc.loop.blank(turn.session) && next.count == h.count > 0
    requires Kept(hc, next.loop, next.db, next.count, next.count - 1, actions) && turn.action in actions && Apart(hc, actions, next.count)
    requires Lookup(next.loop.phase, key) == Some(Derivation) && Owned(next.loop, turn.session, key) && Advances(h.loop, next.loop)
    ensures var (last, reply) := AfterNap(hc, next, turn, key, clock); TurnDone(hc, h, key, last, reply, actions)
  {
    NapDreams(hc, next, turn, key, clock, actions);
    var (dreamer, dreamt) := Dream(hc, next, turn.session, Some((0, false)), clock.first, clock.now);
    DreamtKept(hc, h, next, dreamer, dreamt, turn, key, clock, actions);
  }

  lemma NapDreams(hc: HostConfig, next: Host, turn: Turn, key: string, clock: Clock, actions: set<string>)
    requires Reasonable(hc) && Scheduler.Housed(next.sched.reg) && !hc.loop.blank(turn.session) && next.count > 0
    requires Kept(hc, next.loop, next.db, next.count, next.count - 1, actions)
    requires Lookup(next.loop.phase, key) == Some(Derivation)
    ensures var dreamer := Dream(hc, next, turn.session, Some((0, false)), clock.first, clock.now).0;
            && dreamer.count == next.count && Kept(hc, dreamer.loop, dreamer.db, dreamer.count, dreamer.count - 1, actions)
            && Lookup(dreamer.loop.phase, key) == Some(Derivation) && Advances(next.loop, dreamer.loop)
  {
    DreamKept(hc, next, next.count - 1, actions, turn.session, Some((0, false)), clock.first, clock.now);
    DreamLeavesDerivation(hc, next, turn.session, Some((0, false)), clock.first, clock.now, key);
  }

  lemma DreamtKept(hc: HostConfig, h: Host, next: Host, dreamer: Host, dreamt: Result<DreamReply, HostError>,
                   turn: Turn, key: string, clock: Clock, actions: set<string>)
    requires Reasonable(hc) && Scheduler.Housed(dreamer.sched.reg) && !hc.loop.blank(turn.session) && dreamer.count == h.count > 0
    requires Kept(hc, dreamer.loop, dreamer.db, dreamer.count, dreamer.count - 1, actions) && turn.action in actions && Apart(hc, actions, dreamer.count)
    requires Lookup(dreamer.loop.phase, key) == Some(Derivation) && Owned(next.loop, turn.session, key)
    requires Advances(h.loop, next.loop) && Advances(next.loop, dreamer.loop)
    ensures var (last, reply) := if dreamt.Err? then (dreamer, Err(dreamt.error)) else AdmitAgain(hc, dreamer, turn, key, clock, dreamt.value);
            TurnDone(hc, h, key, last, reply, actions)
  {
    AdvancesTransitive(h.loop, next.loop, dreamer.loop);
    if dreamt.Ok? {
      AgainKept(hc, dreamer, turn, key, clock, dreamt.value, actions);
      var (last, reply) := AdmitAgain(hc, dreamer, turn, key, clock, dreamt.value);
      DoneAfter(hc, h, dreamer, key, last, reply, actions);
    } else {
      StoppedEarly(hc, h, key, dreamer, dreamt.error, actions);
    }
  }

  // ---- a whole turn -------------------------------------------------------------------

  /** What a turn guarantees: its key is new, nothing moved back, and the reply is truthful. */
  ghost predicate TurnFacts(hc: HostConfig, h: Host, turn: Turn, next: Host, r: Result<TurnReply, HostError>, actions: set<string>) {
    && next.count <= h.count + 1 && Kept(hc, next.loop, next.db, next.count, next.count, actions) && Advances(h.loop, next.loop)
    && (r.Ok? ==>
          && r.value.key == TurnKey(hc, turn.session, h.count + 1, turn.text, turn.action)
          && r.value.key !in h.loop.phase && r.value.key in next.loop.phase
          && PhaseOfStatus(r.value.status, next.loop.phase[r.value.key])
          && r.value.key in next.loop.payload && next.loop.payload[r.value.key].value == hc.turnValue(turn.text, turn.action))
  }

  lemma TurnIsKept(hc: HostConfig, h: Host, turn: Turn, clock: Clock, actions: set<string>)
    requires Reasonable(hc) && Scheduler.Housed(h.sched.reg)
    requires Kept(hc, h.loop, h.db, h.count, h.count, actions) && turn.action in actions && Apart(hc, actions, h.count + 1)
    ensures var (next, r) := ObserveTurn(hc, h, turn, clock); TurnFacts(hc, h, turn, next, r, actions)
  {
    if hc.loop.blank(turn.session) {
      SameAdvances(h.loop, h.loop);
    } else {
      var key := TurnKey(hc, turn.session, h.count + 1, turn.text, turn.action);
      TurnExpresses(hc, h, turn, key, actions);
      TurnUnfolds(hc, h, turn, key, clock);
      ExpressedKept(hc, h, AfterExpress(hc, h, turn, key), turn, key, clock, actions);
    }
  }

  /** The host once the turn's key is expressed. */
  function AfterExpress(hc: HostConfig, h: Host, turn: Turn, key: string): Host {
    h.(count := h.count + 1,
       loop := Express(hc.loop, h.loop, turn.session, key, hc.turnValue(turn.text, turn.action), ActorOf(hc, turn), turn.tags, 1.0, 1.0).0)
  }

  lemma TurnUnfolds(hc: HostConfig, h: Host, turn: Turn, key: string, clock: Clock)
    requires Scheduler.Housed(h.sched.reg) && !hc.loop.blank(turn.session)
    requires key == TurnKey(hc, turn.session, h.count + 1, turn.text, turn.action)
    requires Express(hc.loop, h.loop, turn.session, key, hc.turnValue(turn.text, turn.action), ActorOf(hc, turn), turn.tags, 1.0, 1.0).1.Ok?
    ensures ObserveTurn(hc, h, turn, clock) == AdmitTurn(hc, AfterExpress(hc, h, turn, key), turn, key, clock)
  {
  }

  lemma TurnExpresses(hc: HostConfig, h: Host, turn: Turn, key: string, actions: set<string>)
    requires Reasonable(hc) && !hc.loop.blank(turn.session) && Kept(hc, h.loop, h.db, h.count, h.count, actions)
    requires key == TurnKey(hc, turn.session, h.count + 1, turn.text, turn.action)
    ensures var value := hc.turnValue(turn.text, turn.action);
            var (next, r) := Express(hc.loop, h.loop, turn.session, key, value, ActorOf(hc, turn), turn.tags, 1.0, 1.0);
            && r.Ok? && next == AfterExpress(hc, h, turn, key).loop
            && Kept(hc, next, h.db, h.count + 1, h.count, actions) && Advances(h.loop, next)
            && Expressed(next, turn.session, key, value) && key !in h.loop.phase
  {
    assert Named(hc, key, h.count + 1);
    ExpressKept(hc, h.loop, h.db, h.count, actions, turn.session, key, hc.turnValue(turn.text, turn.action), ActorOf(hc, turn), turn.tags);
    KeyIsNew(hc, h, actions, key);
  }

  lemma KeyIsNew(hc: HostConfig, h: Host, actions: set<string>, key: string)
    requires Reasonable(hc) && Kept(hc, h.loop, h.db, h.count, h.count, actions) && Named(hc, key, h.count + 1)
    ensures key !in h.loop.phase
  {
    PartsOf(hc, h.loop, h.db, h.count, h.count, actions);
    NewKeyIsNew(hc, h.loop.phase.Keys, h.count, key);
  }

  lemma ExpressedKept(hc: HostConfig, h: Host, next: Host, turn: Turn, key: string, clock: Clock, actions: set<string>)
    requires Reasonable(hc) && Scheduler.Housed(next.sched.reg) && !hc.loop.blank(turn.session) && next.count == h.count + 1
    requires Kept(hc, next.loop, next.db, next.count, next.count - 1, actions) && turn.action in actions && Apart(hc, actions, next.count)
    requires key == TurnKey(hc, turn.session, h.count + 1, turn.text, turn.action) && key !in h.loop.phase
    requires Expressed(next.loop, turn.session, key, hc.turnValue(turn.text, turn.action)) && Advances(h.loop, next.loop)
    ensures var (last, r) := AdmitTurn(hc, next, turn, key, clock); TurnFacts(hc, h, turn, last, r, actions)
  {
    AdmitTurnKept(hc, next, turn, key, clock, actions);
    var (last, r) := AdmitTurn(hc, next, turn, key, clock);
    AdvancesTransitive(h.loop, next.loop, last.loop);
  }
}
