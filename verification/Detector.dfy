/** The stutter and cycle detector: what one observed action hash does, and which streams of
    hashes it lets pass or seizes. */
module Detector {
  import opened Common

  type Hash = string

  datatype Recovery = Nap | Fridge | Freezer | Seizure

  datatype Stutter = Stutter(last: Option<Hash>, run: nat, recent: seq<Hash>, recoveries: nat)

  const Fresh := Stutter(None, 0, [], 0)

  /** `slice(-window)` of the source, for every integer window: a positive window keeps that
      many elements, zero keeps everything, and a negative one drops from the front. */
  function SliceLast(window: int, s: seq<Hash>): seq<Hash> {
    if window == 0 then s
    else if window > 0 then (if |s| <= window then s else s[|s| - window..])
    else (if |s| <= -window then [] else s[-window..])
  }

  /** An alternating pair over the last four hashes, or a repeated triple over the last six. */
  predicate IsCompressedCycle(hashes: seq<Hash>) {
    var n := |hashes|;
    || (n >= 4 && hashes[n - 4] == hashes[n - 2] && hashes[n - 3] == hashes[n - 1] && hashes[n - 4] != hashes[n - 3])
    || (n >= 6 && hashes[n - 3] == hashes[n - 6] && hashes[n - 2] == hashes[n - 5] && hashes[n - 1] == hashes[n - 4])
  }

  function Note(window: int, s: Stutter, hash: Hash): Stutter {
    Stutter(Some(hash), if s.last == Some(hash) then s.run + 1 else 1,
            SliceLast(window, s.recent + [hash]), s.recoveries)
  }

  /** The recovery that a noted hash calls for. */
  function Decide(s: Stutter): Option<Recovery> {
    if IsCompressedCycle(s.recent) then Some(if s.recoveries >= 1 then Seizure else Freezer)
    else if s.run >= 5 then Some(Seizure)
    else if s.run == 4 then Some(Freezer)
    else if s.run == 3 then Some(Fridge)
    else if s.run == 2 then Some(Nap)
    else None
  }

  /** One session's detector. Once seized, hashes are still noted but nothing is decided. */
  datatype Watch = Watch(stutter: Stutter, seized: bool)

  const NewWatch := Watch(Fresh, false)

  function Trigger(window: int, w: Watch, hash: Hash): Option<Recovery> {
    if w.seized then None else Decide(Note(window, w.stutter, hash))
  }

  function Observe(window: int, w: Watch, hash: Hash): Watch {
    var noted := Note(window, w.stutter, hash);
    match Trigger(window, w, hash)
    case None => Watch(noted, w.seized)
    case Some(step) => Watch(noted.(recoveries := noted.recoveries + 1), step == Seizure)
  }

  function ObserveAll(window: int, hashes: seq<Hash>): Watch {
    if hashes == [] then NewWatch
    else Observe(window, ObserveAll(window, hashes[..|hashes| - 1]), hashes[|hashes| - 1])
  }

  // ---- what the detector remembers ----------------------------------------------------

  lemma SliceLastFacts(window: int, s: seq<Hash>)
    ensures var r := SliceLast(window, s);
            && |r| <= |s| && r == s[|s| - |r|..]
            && |r| == if window == 0 then |s| else if window > 0 then Min(window, |s|) else Max(0, |s| + window)
  {
  }

  /** A tail of a tail, extended by one element. */
  lemma ExtendTail(s: seq<Hash>, tail: seq<Hash>, last: Hash, k: nat)
    requires IsTail(tail, s) && k <= |tail| + 1
    ensures (tail + [last])[|tail| + 1 - k..] == (s + [last])[|s| + 1 - k..]
  {
  }

  ghost predicate IsTail(tail: seq<Hash>, s: seq<Hash>) {
    |tail| <= |s| && tail == s[|s| - |tail|..]
  }

  /** What the detector remembers of a stream: its end, six hashes or more if the window sees
      cycles, at most five otherwise. */
  ghost predicate Remembers(window: int, hashes: seq<Hash>, recent: seq<Hash>) {
    && IsTail(recent, hashes)
    && (if SeesCycles(window) then |recent| >= Min(6, |hashes|) else |recent| <= 5)
    && (window < 0 ==> recent == [])
  }

  lemma {:induction false} RecentIsTail(window: int, hashes: seq<Hash>)
    ensures Remembers(window, hashes, ObserveAll(window, hashes).stutter.recent)
  {
    if hashes != [] {
      var front, last := hashes[..|hashes| - 1], hashes[|hashes| - 1];
      RecentIsTail(window, front);
      NextRecent(window, front, ObserveAll(window, front).stutter.recent, last, hashes);
      ObserveRecent(window, ObserveAll(window, front), last);
    }
  }

  lemma ObserveRecent(window: int, w: Watch, hash: Hash)
    ensures Observe(window, w, hash).stutter.recent == SliceLast(window, w.stutter.recent + [hash])
  {
  }

  lemma NextRecent(window: int, front: seq<Hash>, before: seq<Hash>, last: Hash, all: seq<Hash>)
    requires Remembers(window, front, before) && all == front + [last]
    ensures Remembers(window, all, SliceLast(window, before + [last]))
  {
    var recent := SliceLast(window, before + [last]);
    SliceLastFacts(window, before + [last]);
    ExtendTail(front, before, last, |recent|);
    assert IsTail(recent, all);
  }

  // ---- which streams are seized -------------------------------------------------------

  /** The last n elements repeat with a period. */
  predicate EndsPeriodic(hashes: seq<Hash>, n: nat, period: nat) {
    |hashes| >= n && forall i :: |hashes| - n <= i < |hashes| - period ==> hashes[i] == hashes[i + period]
  }

  predicate SeesCycles(window: int) { window == 0 || window >= 6 }

  lemma PeriodicEndIsCycle(window: int, hashes: seq<Hash>, period: nat)
    requires SeesCycles(window) && 1 <= period <= 3 && EndsPeriodic(hashes, 6, period)
    ensures IsCompressedCycle(ObserveAll(window, hashes).stutter.recent)
  {
    RecentIsTail(window, hashes);
    PeriodicTail(hashes, period);
    TailCycle(hashes, ObserveAll(window, hashes).stutter.recent);
  }

  lemma PeriodicTail(hashes: seq<Hash>, period: nat)
    requires 1 <= period <= 3 && EndsPeriodic(hashes, 6, period)
    ensures IsCompressedCycle(hashes)
  {
    var n := |hashes|;
    assert hashes[n - 6] == hashes[n - 6 + period];
    assert hashes[n - 5] == hashes[n - 5 + period];
    assert hashes[n - 4] == hashes[n - 4 + period];
    assert period < 3 ==> hashes[n - 3] == hashes[n - 3 + period];
    assert period < 2 ==> hashes[n - 2] == hashes[n - 2 + period];
  }

  /** Six remembered hashes are enough to see every cycle, and no cycle is seen that is not there. */
  lemma TailCycle(hashes: seq<Hash>, tail: seq<Hash>)
    requires IsTail(tail, hashes)
    ensures IsCompressedCycle(tail) ==> IsCompressedCycle(hashes)
    ensures |tail| >= Min(6, |hashes|) ==> IsCompressedCycle(tail) == IsCompressedCycle(hashes)
    ensures |tail| < 6 && IsCompressedCycle(tail) ==> |hashes| >= 4 && hashes[|hashes| - 4] == hashes[|hashes| - 2]
  {
    var n, m := |hashes|, |tail|;
    assert forall i: nat :: i < m ==> hashes[n - m + i] == tail[i];
  }

  /** Whatever was observed before, seven observations with period one, two or three end in seizure. */
  lemma ShortCyclesSeize(window: int, hashes: seq<Hash>, period: nat)
    requires SeesCycles(window) && 1 <= period <= 3 && EndsPeriodic(hashes, 7, period)
    ensures ObserveAll(window, hashes).seized
  {
    var six := hashes[..|hashes| - 1];
    PeriodicFront(hashes, period);
    PeriodicEndIsCycle(window, six, period);
    PeriodicEndIsCycle(window, hashes, period);
    CycleRecovers(window, six);
    SecondCycleSeizes(window, hashes);
  }

  lemma PeriodicFront(hashes: seq<Hash>, period: nat)
    requires EndsPeriodic(hashes, 7, period)
    ensures EndsPeriodic(hashes[..|hashes| - 1], 6, period) && EndsPeriodic(hashes, 6, period)
  {
  }

  lemma SecondCycleSeizes(window: int, hashes: seq<Hash>)
    requires hashes != [] && IsCompressedCycle(ObserveAll(window, hashes).stutter.recent)
    requires var before := ObserveAll(window, hashes[..|hashes| - 1]);
             before.seized || before.stutter.recoveries >= 1
    ensures ObserveAll(window, hashes).seized
  {
  }

  /** Observing a cycle leaves the session seized or with a recovery on record. */
  lemma CycleRecovers(window: int, hashes: seq<Hash>)
    requires hashes != [] && IsCompressedCycle(ObserveAll(window, hashes).stutter.recent)
    ensures ObserveAll(window, hashes).seized || ObserveAll(window, hashes).stutter.recoveries >= 1
  {
  }

  // ---- which streams pass -------------------------------------------------------------

  /** No hash repeats its predecessor, the one before it, or, if the window could see it, the
      one three back. */
  predicate Varied(window: int, hashes: seq<Hash>) {
    forall i :: 0 <= i < |hashes| - 1 ==>
      && hashes[i] != hashes[i + 1]
      && (i + 2 < |hashes| ==> hashes[i] != hashes[i + 2])
      && (SeesCycles(window) && i + 3 < |hashes| ==> hashes[i] != hashes[i + 3])
  }

  lemma {:induction false} VariedNeverTriggers(window: int, hashes: seq<Hash>)
    requires Varied(window, hashes)
    ensures var w := ObserveAll(window, hashes);
            && !w.seized && w.stutter.recoveries == 0
            && w.stutter.run <= 1
            && w.stutter.last == (if hashes == [] then None else Some(hashes[|hashes| - 1]))
            && Decide(w.stutter) == None
  {
    if hashes != [] {
      var n := |hashes|;
      var front := hashes[..n - 1];
      assert Varied(window, front);
      VariedNeverTriggers(window, front);
      VariedIsNoCycle(window, hashes);
    }
  }

  lemma VariedIsNoCycle(window: int, hashes: seq<Hash>)
    requires Varied(window, hashes)
    ensures !IsCompressedCycle(ObserveAll(window, hashes).stutter.recent)
  {
    RecentIsTail(window, hashes);
    var recent, n := ObserveAll(window, hashes).stutter.recent, |hashes|;
    TailCycle(hashes, recent);
    if n >= 4 { assert hashes[n - 4] != hashes[n - 3] && hashes[n - 4] != hashes[n - 2]; }
    if n >= 6 && SeesCycles(window) { assert hashes[n - 6] != hashes[n - 3]; }
  }

  /** Any six consecutive hashes are pairwise different. */
  predicate WindowsDistinct(hashes: seq<Hash>) {
    forall i, j :: 0 <= i < j < |hashes| && j - i < 6 ==> hashes[i] != hashes[j]
  }

  /** A stream whose last six hashes are always pairwise distinct never causes a recovery,
      whatever the window: no prefix of it triggers. */
  lemma DistinctWindowsPass(window: int, hashes: seq<Hash>, next: Hash)
    requires WindowsDistinct(hashes + [next])
    ensures Trigger(window, ObserveAll(window, hashes), next) == None
    ensures !ObserveAll(window, hashes + [next]).seized
  {
    var all := hashes + [next];
    assert Varied(window, all);
    VariedNeverTriggers(window, all);
    assert all[..|all| - 1] == hashes;
    assert Varied(window, hashes);
    VariedNeverTriggers(window, hashes);
  }

  /** The window for which the detector keeps its promise: with any other, a stream that
      repeats three different actions for ever is never noticed. */
  ghost predicate SeizesShortCycles(window: int) {
    forall hashes, period: nat :: 1 <= period <= 3 && EndsPeriodic(hashes, 7, period) ==> ObserveAll(window, hashes).seized
  }

  lemma WindowMustSeeCycles(window: int)
    ensures SeizesShortCycles(window) <==> SeesCycles(window)
  {
    if SeesCycles(window) {
      forall hashes, period: nat | 1 <= period <= 3 && EndsPeriodic(hashes, 7, period)
        ensures ObserveAll(window, hashes).seized
      {
        ShortCyclesSeize(window, hashes, period);
      }
    } else {
      WalkIsMissed(window, ["a", "b", "c", "a", "b", "c", "a"]);
    }
  }

  lemma WalkIsMissed(window: int, walk: seq<Hash>)
    requires !SeesCycles(window) && walk == ["a", "b", "c", "a", "b", "c", "a"]
    ensures EndsPeriodic(walk, 7, 3) && !ObserveAll(window, walk).seized
  {
    assert Varied(window, walk);
    VariedNeverTriggers(window, walk);
  }
}
