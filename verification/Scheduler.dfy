/** The drive registry and the idle scheduler: a forest of ranked drives, tasks with finite
    attempt budgets, and the single lease that an idle host may hold. */
module Scheduler {
  import opened Common
  import opened Sorting

  datatype Drive = Drive(id: string, parent: Option<string>, rank: int, enabled: bool)

  datatype Status = Ready | Leased | Completed | Exhausted

  datatype Outcome = Succeeded | Failed | Deferred | Abandoned | Expired | Unknown(name: string)

  datatype Task = Task(
    id: string, driveId: string, priority: int, capabilities: set<string>, maxAttempts: int, cooldownMs: int,
    repeat: bool, enabled: bool, attempts: int, nextEligibleAt: int, status: Status, sequence: nat,
    lastOutcome: Option<Outcome>)

  /** Drives and tasks are kept in insertion order. */
  datatype Registry = Registry(driveOrder: seq<string>, drives: map<string, Drive>,
                               taskOrder: seq<string>, tasks: map<string, Task>)

  const EmptyRegistry := Registry([], map[], [], map[])

  datatype Fault =
    | DriveExists | UnknownDrive | TaskExists | UnknownTask | BadArgument | NotLeaseable | NotLeased
    | UnknownOutcome | CannotRearm | UnknownLease

  // ---- drives -------------------------------------------------------------------------

  ghost predicate Precedes(order: seq<string>, a: string, b: string) {
    exists i, j :: 0 <= i < j < |order| && order[i] == a && order[j] == b
  }

  /** Every parent was registered before its children. */
  ghost predicate Forest(reg: Registry) {
    && NoDuplicates(reg.driveOrder)
    && (forall id :: id in reg.drives <==> id in reg.driveOrder)
    && (forall id :: id in reg.drives ==> reg.drives[id].id == id)
    && (forall id :: id in reg.drives && reg.drives[id].parent.Some? ==>
          Precedes(reg.driveOrder, reg.drives[id].parent.value, id))
  }

  function Position(order: seq<string>, id: string): (i: nat)
    ensures id in order ==> i < |order| && order[i] == id
  {
    if order == [] || order[0] == id then 0 else 1 + Position(order[1..], id)
  }

  lemma PositionUnique(order: seq<string>, id: string, i: nat)
    requires NoDuplicates(order) && i < |order| && order[i] == id
    ensures Position(order, id) == i
  {
    assert id in order;
  }

  lemma ParentIsEarlier(reg: Registry, id: string)
    requires Forest(reg) && id in reg.drives && reg.drives[id].parent.Some?
    ensures reg.drives[id].parent.value in reg.drives
    ensures Position(reg.driveOrder, reg.drives[id].parent.value) < Position(reg.driveOrder, id)
  {
    var p, order := reg.drives[id].parent.value, reg.driveOrder;
    var i, j :| 0 <= i < j < |order| && order[i] == p && order[j] == id;
    PositionUnique(order, p, i);
    PositionUnique(order, id, j);
  }

  /** The chain from the root down to a drive. */
  function DrivePath(reg: Registry, id: string): seq<Drive>
    requires Forest(reg) && id in reg.drives
    decreases Position(reg.driveOrder, id)
  {
    var drive := reg.drives[id];
    if drive.parent.None? then [drive]
    else
      ParentIsEarlier(reg, id);
      DrivePath(reg, drive.parent.value) + [drive]
  }

  /** A path from a root to a drive: adjacent drives are parent and child, and none repeats. */
  ghost predicate IsRootPath(reg: Registry, id: string, path: seq<Drive>) {
    && path != [] && path[0].parent == None && path[|path| - 1].id == id
    && (forall i :: 0 <= i < |path| ==> path[i].id in reg.drives && path[i] == reg.drives[path[i].id])
    && (forall i :: 0 < i < |path| ==> path[i].parent == Some(path[i - 1].id))
    && NoDuplicates(path)
  }

  lemma {:induction false} DrivePathIsRootPath(reg: Registry, id: string)
    requires Forest(reg) && id in reg.drives
    ensures IsRootPath(reg, id, DrivePath(reg, id))
    ensures forall drive :: drive in DrivePath(reg, id) ==> Position(reg.driveOrder, drive.id) <= Position(reg.driveOrder, id)
    decreases Position(reg.driveOrder, id)
  {
    var drive := reg.drives[id];
    if drive.parent.Some? {
      ParentIsEarlier(reg, id);
      DrivePathIsRootPath(reg, drive.parent.value);
      var above := DrivePath(reg, drive.parent.value);
      assert drive !in above;
    }
  }

  /** There is only one root path of a drive. */
  lemma {:induction false} RootPathUnique(reg: Registry, id: string, a: seq<Drive>, b: seq<Drive>)
    requires IsRootPath(reg, id, a) && IsRootPath(reg, id, b)
    ensures a == b
    decreases |a|
  {
    assert a[|a| - 1] == b[|b| - 1];
    if a[|a| - 1].parent.Some? {
      var p := a[|a| - 1].parent.value;
      assert |a| > 1 && |b| > 1;
      assert IsRootPath(reg, p, a[..|a| - 1]) && IsRootPath(reg, p, b[..|b| - 1]);
      RootPathUnique(reg, p, a[..|a| - 1], b[..|b| - 1]);
      assert a == a[..|a| - 1] + [a[|a| - 1]] && b == b[..|b| - 1] + [b[|b| - 1]];
    } else {
      if |a| > 1 { LastHasParent(reg, id, a); }
      if |b| > 1 { LastHasParent(reg, id, b); }
    }
  }

  lemma LastHasParent(reg: Registry, id: string, path: seq<Drive>)
    requires IsRootPath(reg, id, path) && |path| > 1
    ensures path[|path| - 1].parent.Some?
  {
    var last := |path| - 1;
    assert path[last].parent == Some(path[last - 1].id);
  }

  function Ranks(path: seq<Drive>): seq<int> {
    seq(|path|, i requires 0 <= i < |path| => path[i].rank)
  }

  // ---- candidate order ----------------------------------------------------------------

  /** Negative, zero or positive; a proper prefix comes first. */
  function CompareArrays(left: seq<int>, right: seq<int>): int {
    if left == [] then (if right == [] then 0 else -1)
    else if right == [] then 1
    else if left[0] != right[0] then left[0] - right[0]
    else CompareArrays(left[1..], right[1..])
  }

  datatype Candidate = Candidate(task: Task, ranks: seq<int>)

  /** Ancestor ranks, then priority, then registration. Sequence numbers differ between tasks,
      so the comparison of ids that follows in the source is never reached. */
  predicate Before(a: Candidate, b: Candidate) {
    var order := CompareArrays(a.ranks, b.ranks);
    if order != 0 then order < 0
    else if a.task.priority != b.task.priority then a.task.priority < b.task.priority
    else a.task.sequence < b.task.sequence
  }

  function CandidateOrder(): (Candidate, Candidate) -> bool {
    (a: Candidate, b: Candidate) => Before(a, b)
  }

  lemma {:induction false} CompareFlips(a: seq<int>, b: seq<int>)
    ensures CompareArrays(a, b) == -CompareArrays(b, a)
    ensures CompareArrays(a, b) == 0 <==> a == b
  {
    if a != [] && b != [] {
      if a[0] == b[0] {
        CompareFlips(a[1..], b[1..]);
        assert a == [a[0]] + a[1..] && b == [b[0]] + b[1..];
      }
    }
  }

  lemma {:induction false} CompareTransitive(a: seq<int>, b: seq<int>, c: seq<int>)
    requires CompareArrays(a, b) <= 0 && CompareArrays(b, c) <= 0
    ensures CompareArrays(a, c) <= 0
    ensures CompareArrays(a, c) == 0 ==> CompareArrays(a, b) == 0 && CompareArrays(b, c) == 0
  {
    if a != [] && b != [] && c != [] && a[0] == b[0] == c[0] {
      CompareTransitive(a[1..], b[1..], c[1..]);
    }
  }

  /** The candidate order is a strict total order on candidates of different tasks. */
  lemma CandidatesAreOrdered()
    ensures WeakOrder(CandidateOrder())
    ensures forall a: Candidate, b: Candidate {:trigger Before(a, b)} :: a.task.sequence != b.task.sequence ==> Before(a, b) || Before(b, a)
  {
    var lt := CandidateOrder();
    forall a: Candidate, b: Candidate ensures a.task.sequence != b.task.sequence ==> Before(a, b) || Before(b, a)
    {
      CompareFlips(a.ranks, b.ranks);
    }
    forall a: Candidate ensures !lt(a, a) {
      CompareFlips(a.ranks, a.ranks);
    }
    forall a: Candidate, b: Candidate, c: Candidate | lt(a, b) && lt(b, c) ensures lt(a, c) {
      BeforeTransitive(a, b, c);
    }
    forall a: Candidate, b: Candidate, c: Candidate | lt(a, c) ensures lt(a, b) || lt(b, c) {
      BeforeSplits(a, b, c);
    }
  }

  lemma BeforeTransitive(a: Candidate, b: Candidate, c: Candidate)
    requires Before(a, b) && Before(b, c)
    ensures Before(a, c)
  {
    CompareTransitive(a.ranks, b.ranks, c.ranks);
  }

  lemma BeforeSplits(a: Candidate, b: Candidate, c: Candidate)
    requires Before(a, c)
    ensures Before(a, b) || Before(b, c)
  {
    CompareFlips(a.ranks, b.ranks);
    CompareFlips(b.ranks, c.ranks);
    CompareFlips(a.ranks, c.ranks);
    if !Before(a, b) && !Before(b, c) {
      CompareTransitive(c.ranks, b.ranks, a.ranks);
    }
  }

  // ---- registry calls -----------------------------------------------------------------

  function RegisterDrive(reg: Registry, id: string, parent: Option<string>, rank: int, enabled: bool): (Registry, Result<(), Fault>) {
    if id in reg.drives then (reg, Err(DriveExists))
    else if parent.Some? && parent.value !in reg.drives then (reg, Err(UnknownDrive))
    else (reg.(driveOrder := reg.driveOrder + [id], drives := reg.drives[id := Drive(id, parent, rank, enabled)]), Ok(()))
  }

  function SetDriveEnabled(reg: Registry, id: string, enabled: bool): (Registry, Result<(), Fault>) {
    if id !in reg.drives then (reg, Err(UnknownDrive))
    else (reg.(drives := reg.drives[id := reg.drives[id].(enabled := enabled)]), Ok(()))
  }

  datatype TaskSpec = TaskSpec(id: string, driveId: string, priority: int, capabilities: set<string>, notBefore: int,
                               maxAttempts: int, cooldownMs: int, repeat: bool, enabled: bool)

  function RegisterTask(reg: Registry, spec: TaskSpec): (Registry, Result<(), Fault>) {
    if spec.id in reg.tasks then (reg, Err(TaskExists))
    else if spec.driveId !in reg.drives then (reg, Err(UnknownDrive))
    else if spec.notBefore < 0 || spec.maxAttempts < 1 || spec.cooldownMs < 0 then (reg, Err(BadArgument))
    else if spec.repeat && spec.cooldownMs == 0 then (reg, Err(BadArgument))
    else
      var task := Task(spec.id, spec.driveId, spec.priority, spec.capabilities, spec.maxAttempts, spec.cooldownMs,
                       spec.repeat, spec.enabled, 0, spec.notBefore, Ready, |reg.taskOrder|, None);
      (reg.(taskOrder := reg.taskOrder + [spec.id], tasks := reg.tasks[spec.id := task]), Ok(()))
  }

  function SetTaskEnabled(reg: Registry, id: string, enabled: bool): (Registry, Result<(), Fault>) {
    if id !in reg.tasks then (reg, Err(UnknownTask))
    else (reg.(tasks := reg.tasks[id := reg.tasks[id].(enabled := enabled)]), Ok(()))
  }

  /** Gives a task its budget back. The new budget is stored before the time is checked. */
  function RearmTask(reg: Registry, id: string, maxAttempts: Option<int>, notBefore: int): (Registry, Result<(), Fault>) {
    if id !in reg.tasks then (reg, Err(UnknownTask))
    else if reg.tasks[id].status == Leased then (reg, Err(CannotRearm))
    else if maxAttempts.Some? && maxAttempts.value < 1 then (reg, Err(BadArgument))
    else
      var task := if maxAttempts.Some? then reg.tasks[id].(maxAttempts := maxAttempts.value) else reg.tasks[id];
      if notBefore < 0 then (reg.(tasks := reg.tasks[id := task]), Err(BadArgument))
      else
        (reg.(tasks := reg.tasks[id := task.(attempts := 0, nextEligibleAt := notBefore, status := Ready, lastOutcome := None)]),
         Ok(()))
  }

  predicate Eligible(reg: Registry, id: string, now: int, capabilities: set<string>)
    requires Forest(reg) && id in reg.tasks && reg.tasks[id].driveId in reg.drives
  {
    var t := reg.tasks[id];
    && t.enabled && t.status == Ready && t.attempts < t.maxAttempts && now >= t.nextEligibleAt
    && (forall drive :: drive in DrivePath(reg, t.driveId) ==> drive.enabled)
    && t.capabilities <= capabilities
  }

  function CandidateOf(reg: Registry, id: string): Candidate
    requires Forest(reg) && id in reg.tasks && reg.tasks[id].driveId in reg.drives
  {
    Candidate(reg.tasks[id], Ranks(DrivePath(reg, reg.tasks[id].driveId)))
  }

  /** Tasks are registered under known drives and numbered in the order of registration. */
  ghost predicate Housed(reg: Registry) {
    && Forest(reg)
    && NoDuplicates(reg.taskOrder)
    && (forall id :: id in reg.tasks <==> id in reg.taskOrder)
    && (forall i :: 0 <= i < |reg.taskOrder| ==> reg.tasks[reg.taskOrder[i]].sequence == i)
    && (forall id :: id in reg.tasks ==> reg.tasks[id].id == id && reg.tasks[id].driveId in reg.drives)
  }

  function EligibleFrom(reg: Registry, ids: seq<string>, now: int, capabilities: set<string>): seq<Candidate>
    requires Housed(reg) && forall id :: id in ids ==> id in reg.tasks
  {
    if ids == [] then []
    else
      var front, id := EligibleFrom(reg, ids[..|ids| - 1], now, capabilities), ids[|ids| - 1];
      if Eligible(reg, id, now, capabilities) then front + [CandidateOf(reg, id)] else front
  }

  function SelectCandidate(reg: Registry, now: int, capabilities: set<string>): Option<Task>
    requires Housed(reg)
  {
    var eligible := Sort(CandidateOrder(), EligibleFrom(reg, reg.taskOrder, now, capabilities));
    if eligible == [] then None else Some(eligible[0].task)
  }

  lemma {:induction false} EligibleFromMembers(reg: Registry, ids: seq<string>, now: int, capabilities: set<string>)
    requires Housed(reg) && forall id :: id in ids ==> id in reg.tasks
    ensures forall c :: c in EligibleFrom(reg, ids, now, capabilities) ==>
              c.task.id in ids && Eligible(reg, c.task.id, now, capabilities) && c == CandidateOf(reg, c.task.id)
    ensures forall id :: id in ids && Eligible(reg, id, now, capabilities) ==>
              CandidateOf(reg, id) in EligibleFrom(reg, ids, now, capabilities)
  {
    if ids != [] {
      EligibleFromMembers(reg, ids[..|ids| - 1], now, capabilities);
      assert ids == ids[..|ids| - 1] + [ids[|ids| - 1]];
    }
  }

  /** Selection returns nothing exactly when nothing is eligible, and otherwise the one
      eligible task that comes before every other eligible task. */
  lemma SelectionIsMinimum(reg: Registry, now: int, capabilities: set<string>)
    requires Housed(reg)
    ensures SelectCandidate(reg, now, capabilities) == None
            <==> forall id :: id in reg.tasks ==> !Eligible(reg, id, now, capabilities)
    ensures SelectCandidate(reg, now, capabilities).Some? ==>
              var best := SelectCandidate(reg, now, capabilities).value;
              && best.id in reg.tasks && reg.tasks[best.id] == best
              && Eligible(reg, best.id, now, capabilities)
              && forall id :: id in reg.tasks && id != best.id && Eligible(reg, id, now, capabilities) ==>
                   Before(CandidateOf(reg, best.id), CandidateOf(reg, id))
  {
    var all := EligibleFrom(reg, reg.taskOrder, now, capabilities);
    var sorted := Sort(CandidateOrder(), all);
    EligibleFromMembers(reg, reg.taskOrder, now, capabilities);
    CandidatesAreOrdered();
    if all != [] {
      SortHeadLeast(CandidateOrder(), all);
      var best := sorted[0].task;
      forall id | id in reg.tasks && id != best.id && Eligible(reg, id, now, capabilities)
        ensures Before(CandidateOf(reg, best.id), CandidateOf(reg, id))
      {
        SequencesDiffer(reg, id, best.id);
        assert !CandidateOrder()(CandidateOf(reg, id), sorted[0]);
      }
      assert Eligible(reg, best.id, now, capabilities);
    }
  }

  lemma SequencesDiffer(reg: Registry, a: string, b: string)
    requires Housed(reg) && a in reg.tasks && b in reg.tasks && a != b
    ensures reg.tasks[a].sequence != reg.tasks[b].sequence
  {
    var i :| 0 <= i < |reg.taskOrder| && reg.taskOrder[i] == a;
    var j :| 0 <= j < |reg.taskOrder| && reg.taskOrder[j] == b;
  }

  function LeaseTask(reg: Registry, id: string, now: int): (Registry, Result<Task, Fault>) {
    if id !in reg.tasks then (reg, Err(UnknownTask))
    else
      var t := reg.tasks[id];
      if t.status != Ready || t.attempts >= t.maxAttempts || now < t.nextEligibleAt then (reg, Err(NotLeaseable))
      else
        var leased := t.(status := Leased, attempts := t.attempts + 1);
        (reg.(tasks := reg.tasks[id := leased]), Ok(leased))
  }

  function Settled(t: Task, outcome: Outcome, now: int): Task {
    if t.attempts < t.maxAttempts && (t.repeat || outcome != Succeeded) then
      t.(lastOutcome := Some(outcome), status := Ready, nextEligibleAt := now + t.cooldownMs)
    else
      t.(lastOutcome := Some(outcome), status := if outcome == Succeeded then Completed else Exhausted)
  }

  function SettleTask(reg: Registry, id: string, outcome: Outcome, now: int): (Registry, Result<Task, Fault>) {
    if id !in reg.tasks then (reg, Err(UnknownTask))
    else if outcome.Unknown? then (reg, Err(UnknownOutcome))
    else if reg.tasks[id].status != Leased then (reg, Err(NotLeased))
    else if now < 0 then (reg, Err(BadArgument))
    else
      var t := Settled(reg.tasks[id], outcome, now);
      (reg.(tasks := reg.tasks[id := t]), Ok(t))
  }
}
