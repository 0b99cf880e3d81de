/** The ladder nap, fridge, freezer, seizure, told from the observed actions alone: which answer an
    action gets, as a function of the stream that it ends. */
module Ladder {
  import opened Common
  import opened Detector
  import opened FeedbackLoop
  import opened LifecycleLog
  import opened LoopRuns
  import opened LoopTheorems
  import Objects
  import Dreamcatcher

  // ---- what a stream shows -------------------------------------------------------------

  /** The last r actions are the same, and no more than these. */
  ghost predicate EndsWithRun(s: seq<Hash>, r: nat) {
    && 1 <= r <= |s|
    && (forall i :: |s| - r <= i < |s| ==> s[i] == s[|s| - 1])
    && (r < |s| ==> s[|s| - r - 1] != s[|s| - 1])
  }

  lemma RunIsUnique(s: seq<Hash>, q: nat, r: nat)
    requires EndsWithRun(s, q) && EndsWithRun(s, r)
    ensures q == r
  {
  }

  /** The end of a stream that a window keeps: all of it for window zero, nothing for a negative one. */
  function KeptEnd(window: int, s: seq<Hash>): seq<Hash> {
    if window == 0 || |s| <= window then s else if window > 0 then s[|s| - window..] else []
  }

  /** The last p actions are the p actions before them. */
  predicate Repeats(s: seq<Hash>, p: nat) {
    |s| >= 2 * p && s[|s| - 2 * p..|s| - p] == s[|s| - p..]
  }

  /** Two different actions done twice in turn, or any three actions done twice. */
  predicate ShowsCycle(s: seq<Hash>) {
    (Repeats(s, 2) && s[|s| - 2] != s[|s| - 1]) || Repeats(s, 3)
  }

  /** No action so far was repeated at once, and the window never showed a cycle. */
  ghost predicate Quiet(window: int, s: seq<Hash>) {
    forall j :: 0 <= j < |s| ==> QuietAt(window, s, j)
  }

  predicate QuietAt(window: int, s: seq<Hash>, j: nat)
    requires j < |s|
  {
    (j > 0 ==> s[j] != s[j - 1]) && !ShowsCycle(KeptEnd(window, s[..j + 1]))
  }

  // ---- what the detector knows of it ---------------------------------------------------

  lemma PairRepeats(s: seq<Hash>)
    ensures Repeats(s, 2) <==> |s| >= 4 && s[|s| - 4] == s[|s| - 2] && s[|s| - 3] == s[|s| - 1]
  {
    var n := |s|;
    if n >= 4 { assert s[n - 4..n - 2] == [s[n - 4], s[n - 3]] && s[n - 2..] == [s[n - 2], s[n - 1]]; }
  }

  lemma TripleRepeats(s: seq<Hash>)
    ensures Repeats(s, 3) <==> |s| >= 6 && s[|s| - 6] == s[|s| - 3] && s[|s| - 5] == s[|s| - 2] && s[|s| - 4] == s[|s| - 1]
  {
    var n := |s|;
    if n >= 6 { assert s[n - 6..n - 3] == [s[n - 6], s[n - 5], s[n - 4]] && s[n - 3..] == [s[n - 3], s[n - 2], s[n - 1]]; }
  }

  lemma CycleIsShown(s: seq<Hash>)
    ensures IsCompressedCycle(s) <==> ShowsCycle(s)
  {
    PairRepeats(s);
    TripleRepeats(s);
  }

  lemma KeptEndGrows(window: int, front: seq<Hash>, last: Hash)
    ensures SliceLast(window, KeptEnd(window, front) + [last]) == KeptEnd(window, front + [last])
  {
  }

  /** What the detector remembers of a stream: its kept end, its last action and its last run. */
  ghost predicate RememberedAs(window: int, t: Stutter, s: seq<Hash>) {
    && t.recent == KeptEnd(window, s)
    && (s == [] ==> t.run == 0 && t.last == None)
    && (s != [] ==> t.last == Some(s[|s| - 1]) && EndsWithRun(s, t.run))
  }

  lemma {:induction false} StreamIsRemembered(window: int, s: seq<Hash>)
    ensures RememberedAs(window, ObserveAll(window, s).stutter, s)
  {
    if s != [] {
      StreamIsRemembered(window, s[..|s| - 1]);
      RememberedGrows(window, ObserveAll(window, s[..|s| - 1]), s[..|s| - 1], s[|s| - 1], s);
    }
  }

  lemma RememberedGrows(window: int, w: Watch, front: seq<Hash>, last: Hash, s: seq<Hash>)
    requires RememberedAs(window, w.stutter, front) && s == front + [last]
    ensures RememberedAs(window, Observe(window, w, last).stutter, s)
  {
    KeptEndGrows(window, front, last);
    RunGrows(front, last, w.stutter.run);
  }

  lemma RunGrows(front: seq<Hash>, last: Hash, r: nat)
    requires front != [] ==> EndsWithRun(front, r)
    ensures EndsWithRun(front + [last], if front != [] && front[|front| - 1] == last then r + 1 else 1)
  {
  }

  lemma NotedIsNext(window: int, s: seq<Hash>, h: Hash)
    ensures var noted := Note(window, ObserveAll(window, s).stutter, h);
            && noted.recent == KeptEnd(window, s + [h]) && EndsWithRun(s + [h], noted.run)
            && noted.recoveries == ObserveAll(window, s).stutter.recoveries
  {
    StreamIsRemembered(window, s);
    KeptEndGrows(window, s, h);
    RunGrows(s, h, ObserveAll(window, s).stutter.run);
  }

  /** A recovery is on record exactly if the stream was not quiet, and always if it ended in seizure. */
  ghost predicate Recorded(window: int, w: Watch, s: seq<Hash>) {
    (w.stutter.recoveries == 0 <==> Quiet(window, s)) && (w.seized ==> w.stutter.recoveries > 0)
  }

  lemma {:induction false} QuietIsUnrecovered(window: int, s: seq<Hash>)
    ensures Recorded(window, ObserveAll(window, s), s)
  {
    if s != [] {
      QuietIsUnrecovered(window, s[..|s| - 1]);
      RecordedGrows(window, ObserveAll(window, s[..|s| - 1]), s[..|s| - 1], s[|s| - 1], s);
    }
  }

  lemma RecordedGrows(window: int, w: Watch, front: seq<Hash>, last: Hash, s: seq<Hash>)
    requires Recorded(window, w, front) && w == ObserveAll(window, front) && s == front + [last]
    ensures Recorded(window, Observe(window, w, last), s)
  {
    NotedIsNext(window, front, last);
    NextIsCounted(window, w, last, s);
    QuietGrows(window, s);
    assert s[..|s| - 1] == front;
  }

  /** An action counts as a recovery exactly if it repeats the one before or shows a cycle. */
  lemma NextIsCounted(window: int, w: Watch, last: Hash, s: seq<Hash>)
    requires var noted := Note(window, w.stutter, last); noted.recent == KeptEnd(window, s) && EndsWithRun(s, noted.run)
    requires w.seized ==> w.stutter.recoveries > 0
    ensures var next := Observe(window, w, last);
            && (next.stutter.recoveries == 0
                <==> w.stutter.recoveries == 0 && !ShowsCycle(KeptEnd(window, s)) && (|s| >= 2 ==> s[|s| - 1] != s[|s| - 2]))
            && (next.seized ==> next.stutter.recoveries > 0)
  {
    CycleIsShown(KeptEnd(window, s));
    LongerRun(s, Note(window, w.stutter, last).run);
  }

  lemma LongerRun(s: seq<Hash>, r: nat)
    requires EndsWithRun(s, r)
    ensures r >= 2 <==> |s| >= 2 && s[|s| - 1] == s[|s| - 2]
  {
  }

  lemma QuietGrows(window: int, s: seq<Hash>)
    requires s != []
    ensures Quiet(window, s)
            <==> && Quiet(window, s[..|s| - 1]) && !ShowsCycle(KeptEnd(window, s))
                 && (|s| >= 2 ==> s[|s| - 1] != s[|s| - 2])
  {
    var front := s[..|s| - 1];
    assert s[..|s|] == s;
    forall j | 0 <= j < |front| ensures QuietAt(window, front, j) == QuietAt(window, s, j) {
      assert front[..j + 1] == s[..j + 1];
    }
    assert QuietAt(window, s, |s| - 1) <==> !ShowsCycle(KeptEnd(window, s)) && (|s| >= 2 ==> s[|s| - 1] != s[|s| - 2]);
  }

  // ---- the ladder ------------------------------------------------------------------------

  /** The answer to an action that ends a stream with r equal ones. */
  function Rung(r: nat): Option<Recovery> {
    if r <= 1 then None else if r == 2 then Some(Nap) else if r == 3 then Some(Fridge) else if r == 4 then Some(Freezer) else Some(Seizure)
  }

  /** The ladder. An action of a session that is not seized, without a cycle in what the window
      keeps, is answered by the length of the run of equal actions that it ends: nothing, nap,
      fridge, freezer, and seizure from the fifth on. With a cycle, it is answered by the freezer
      the first time that anything is noticed at all, and by seizure later. */
  lemma LadderOfStream(window: int, s: seq<Hash>, h: Hash, r: nat)
    requires !ObserveAll(window, s).seized && EndsWithRun(s + [h], r)
    ensures !ShowsCycle(KeptEnd(window, s + [h])) && r == 1 ==> Trigger(window, ObserveAll(window, s), h) == None
    ensures !ShowsCycle(KeptEnd(window, s + [h])) && r == 2 ==> Trigger(window, ObserveAll(window, s), h) == Some(Nap)
    ensures !ShowsCycle(KeptEnd(window, s + [h])) && r == 3 ==> Trigger(window, ObserveAll(window, s), h) == Some(Fridge)
    ensures !ShowsCycle(KeptEnd(window, s + [h])) && r == 4 ==> Trigger(window, ObserveAll(window, s), h) == Some(Freezer)
    ensures !ShowsCycle(KeptEnd(window, s + [h])) && r >= 5 ==> Trigger(window, ObserveAll(window, s), h) == Some(Seizure)
    ensures ShowsCycle(KeptEnd(window, s + [h])) ==>
              Trigger(window, ObserveAll(window, s), h) == Some(if Quiet(window, s) then Freezer else Seizure)
  {
    NotedIsNext(window, s, h);
    RunIsUnique(s + [h], r, Note(window, ObserveAll(window, s).stutter, h).run);
    CycleIsShown(KeptEnd(window, s + [h]));
    QuietIsUnrecovered(window, s);
  }

  /** A seizure ends the ladder: the session is seized from then on, and only then. */
  lemma SeizureIsTheEnd(window: int, s: seq<Hash>, h: Hash)
    ensures ObserveAll(window, s + [h]).seized
            <==> ObserveAll(window, s).seized || Trigger(window, ObserveAll(window, s), h) == Some(Seizure)
  {
    assert (s + [h])[..|s|] == s;
  }

  // ---- the ladder of a loop ----------------------------------------------------------------

  /** In every run of the loop, an observation is answered by the ladder of the actions that its own
      session has shown; a seized session is answered by a pause, which reads as a seizure. */
  lemma LadderOfRun(cfg: Config, d: Objects.Digests, db: Dreamcatcher.Db, ops: seq<Op>, session: string, h: Hash, actor: string, r: nat)
    requires FreshRun(cfg, d, db, ops) && !cfg.blank(session) && EndsWithRun(Observations(ops, session) + [h], r)
    ensures var st, s := Run(cfg, d, db, ops).loop, Observations(ops, session);
            var answer, end := ObserveAction(cfg, st, session, h, actor).1, KeptEnd(cfg.hashWindow, s + [h]);
            && (session in st.seized ==> answer == Ok(Some(Seizure)))
            && (session !in st.seized && !ShowsCycle(end) ==> answer == Ok(Rung(r)))
            && (session !in st.seized && ShowsCycle(end) ==>
                  answer == Ok(Some(if Quiet(cfg.hashWindow, s) then Freezer else Seizure)))
  {
    var st, s := Run(cfg, d, db, ops).loop, Observations(ops, session);
    RunWatches(cfg, d, db, ops, session);
    RunsKeepInv(cfg, d, db, ops);
    AnswerIsTrigger(cfg, st, session, h, actor);
    if session !in st.seized { LadderOfStream(cfg.hashWindow, s, h, r); }
  }

  /** What an observation answers. */
  lemma AnswerIsTrigger(cfg: Config, st: Loop, session: string, h: Hash, actor: string)
    requires Inv(cfg, st) && !cfg.blank(session)
    ensures ObserveAction(cfg, st, session, h, actor).1
            == if session in st.seized then Ok(Some(Seizure)) else Ok(Trigger(cfg.hashWindow, WatchOf(st, session), h))
  {
    assert Caused(cfg, st, session, h) == Trigger(cfg.hashWindow, WatchOf(st, session), h);
    if Caused(cfg, st, session, h).Some? {
      ObserveRecovers(cfg, st, session, h, actor);
    } else {
      ObserveQuietly(cfg, st, session, h, actor);
      QuietAnswer(cfg, st, session, h, actor);
    }
  }

  lemma QuietAnswer(cfg: Config, st: Loop, session: string, h: Hash, actor: string)
    requires !cfg.blank(session) && Caused(cfg, st, session, h) == None
    ensures ObserveAction(cfg, st, session, h, actor).1 == if session in st.seized then Ok(Some(Seizure)) else Ok(None)
  {
  }

  // ---- one action over and over --------------------------------------------------------------

  function Same(h: Hash, n: nat): seq<Hash> { seq(n, i => h) }

  lemma SameRun(h: Hash, n: nat)
    ensures Same(h, n) + [h] == Same(h, n + 1) && EndsWithRun(Same(h, n) + [h], n + 1)
  {
  }

  /** Up to five equal actions show no cycle of two, nor, being at most five, one of three. */
  lemma SameShowsNoCycle(window: int, h: Hash, n: nat)
    requires n <= 5
    ensures !ShowsCycle(KeptEnd(window, Same(h, n)))
  {
  }

  lemma {:induction false} SameSeizes(window: int, h: Hash, n: nat)
    ensures ObserveAll(window, Same(h, n)).seized <==> n >= 5
  {
    if n > 0 {
      SameSeizes(window, h, n - 1);
      SameRun(h, n - 1);
      SeizureIsTheEnd(window, Same(h, n - 1), h);
      if n <= 5 { SameTriggers(window, Same(h, n - 1), h, n); }
    }
  }

  lemma SameTriggers(window: int, s: seq<Hash>, h: Hash, n: nat)
    requires 1 <= n <= 5 && s + [h] == Same(h, n) && !ObserveAll(window, s).seized
    ensures Trigger(window, ObserveAll(window, s), h) == Some(Seizure) <==> n == 5
  {
    SameRun(h, n - 1);
    assert s == (s + [h])[..n - 1] == Same(h, n)[..n - 1] == Same(h, n - 1);
    LadderOfStream(window, s, h, n);
    SameShowsNoCycle(window, h, n);
  }

  lemma SeizedByFive(cfg: Config, d: Objects.Digests, db: Dreamcatcher.Db, ops: seq<Op>, session: string, h: Hash, n: nat)
    requires FreshRun(cfg, d, db, ops) && !cfg.blank(session) && Observations(ops, session) == Same(h, n)
    ensures session in Run(cfg, d, db, ops).loop.seized <==> n >= 5
  {
    RunWatches(cfg, d, db, ops, session);
    SameSeizes(cfg.hashWindow, h, n);
  }

  /** A session that does one thing over and over is let do it once, then told to nap, put in the
      fridge, put in the freezer, and seized, whatever the window; and then it stays paused. */
  lemma RepeatingClimbsTheLadder(cfg: Config, d: Objects.Digests, db: Dreamcatcher.Db, ops: seq<Op>, session: string, h: Hash, actor: string, n: nat)
    requires FreshRun(cfg, d, db, ops) && !cfg.blank(session) && Observations(ops, session) == Same(h, n)
    ensures ObserveAction(cfg, Run(cfg, d, db, ops).loop, session, h, actor).1
            == Ok(if n == 0 then None else if n == 1 then Some(Nap) else if n == 2 then Some(Fridge)
                  else if n == 3 then Some(Freezer) else Some(Seizure))
  {
    SameEnds(cfg, ops, session, h, n);
    LadderOfRun(cfg, d, db, ops, session, h, actor, n + 1);
    SeizedByFive(cfg, d, db, ops, session, h, n);
  }

  lemma SameEnds(cfg: Config, ops: seq<Op>, session: string, h: Hash, n: nat)
    requires Observations(ops, session) == Same(h, n)
    ensures EndsWithRun(Observations(ops, session) + [h], n + 1)
    ensures n < 5 ==> !ShowsCycle(KeptEnd(cfg.hashWindow, Observations(ops, session) + [h]))
  {
    SameRun(h, n);
    if n < 5 { SameShowsNoCycle(cfg.hashWindow, h, n + 1); }
  }
}
