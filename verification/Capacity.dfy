/**
 Work Source capacity: a semaphore whose permits are forgotten when a Work Source becomes active and
 returned when it is removed, with a counter that first absorbs what an earlier database already
 held in excess (crates/sylvops-daemon/src/daemon.rs:725-730, 2075-2136, 2790-2830 and 4947-4966).

 Each semaphore or atomic operation is one sequentially consistent step of one task.
 */
module Capacity {
  type TaskId = nat

  /** 256 KiB of snapshot budget in entries of 1536 bytes (crates/sylvops-core/src/domain.rs:12-15). */
  const MAX: nat := (256 * 1024) / 1536

  datatype Task =
    | Idle
    | Holding                 // an owned permit, worktree not yet recorded
    | Releasing               // row marked removed, excess not yet read
    | Observed(excess: nat)   // at the head of the compare-exchange loop

  /** `active` counts the database's unremoved Work Sources. */
  datatype System = System(permits: nat, excess: nat, active: nat, tasks: map<TaskId, Task>)

  datatype Step =
    | TryAcquire
    | GiveBack          // creation failed, the permit is dropped
    | RecordAndForget   // the row is committed and the permit forgotten
    | MarkRemoved
    | LoadExcess
    | CompareExchange(spurious: bool)
    | AddPermit

  function Saturating(a: nat, b: nat): nat {
    if a <= b then 0 else a - b
  }

  /** The daemon starts with whatever the database already holds. */
  function Init(active: nat, tasks: set<TaskId>): System {
    System(Saturating(MAX, active), Saturating(active, MAX), active, map t | t in tasks :: Idle)
  }

  function To(s: System, t: TaskId, task: Task): System {
    s.(tasks := s.tasks[t := task])
  }

  function Next(s: System, t: TaskId, step: Step): System {
    if t !in s.tasks then s
    else
      match (step, s.tasks[t])
      case (TryAcquire, Idle) => if s.permits == 0 then s else To(s.(permits := s.permits - 1), t, Holding)
      case (GiveBack, Holding) => To(s.(permits := s.permits + 1), t, Idle)
      case (RecordAndForget, Holding) => To(s.(active := s.active + 1), t, Idle)
      case (MarkRemoved, Idle) => if s.active == 0 then s else To(s.(active := s.active - 1), t, Releasing)
      case (LoadExcess, Releasing) => To(s, t, Observed(s.excess))
      case (CompareExchange(spurious), Observed(observed)) =>
        if observed == 0 then s
        else if s.excess == observed && !spurious then To(s.(excess := observed - 1), t, Idle)
        else To(s, t, Observed(s.excess))
      case (AddPermit, Observed(observed)) =>
        if observed == 0 then To(s.(permits := s.permits + 1), t, Idle) else s
      case _ => s
  }

  function Run(active: nat, tasks: set<TaskId>, steps: seq<(TaskId, Step)>): System {
    if steps == [] then Init(active, tasks)
    else Next(Run(active, tasks, steps[..|steps| - 1]), steps[|steps| - 1].0, steps[|steps| - 1].1)
  }

  ghost function HoldingTasks(tasks: map<TaskId, Task>): set<TaskId> {
    set t | t in tasks && tasks[t].Holding?
  }

  ghost function ReleasingTasks(tasks: map<TaskId, Task>): set<TaskId> {
    set t | t in tasks && InRelease(tasks[t])
  }

  /** Permits are neither made nor lost, and while there is excess nothing can be acquired. */
  ghost predicate Conserved(s: System) {
    && s.permits + |HoldingTasks(s.tasks)| + s.active + |ReleasingTasks(s.tasks)| == MAX + s.excess
    && (s.excess > 0 ==> s.permits == 0 && HoldingTasks(s.tasks) == {})
    && (forall t | t in s.tasks && s.tasks[t] == Observed(0) :: s.excess == 0)
  }

  predicate InRelease(task: Task) {
    task.Releasing? || task.Observed?
  }

  lemma HoldingAfter(tasks: map<TaskId, Task>, t: TaskId, task: Task)
    requires t in tasks
    ensures |HoldingTasks(tasks[t := task])|
            == |HoldingTasks(tasks)| + (if task.Holding? then 1 else 0) - (if tasks[t].Holding? then 1 else 0)
  {
    var before, after := HoldingTasks(tasks), HoldingTasks(tasks[t := task]);
    assert before - {t} == after - {t};
    assert |before - {t}| == |before| - (if tasks[t].Holding? then 1 else 0);
    assert |after - {t}| == |after| - (if task.Holding? then 1 else 0);
  }

  lemma ReleasingAfter(tasks: map<TaskId, Task>, t: TaskId, task: Task)
    requires t in tasks
    ensures |ReleasingTasks(tasks[t := task])|
            == |ReleasingTasks(tasks)| + (if InRelease(task) then 1 else 0) - (if InRelease(tasks[t]) then 1 else 0)
  {
    var before, after := ReleasingTasks(tasks), ReleasingTasks(tasks[t := task]);
    assert before - {t} == after - {t};
    assert |before - {t}| == |before| - (if InRelease(tasks[t]) then 1 else 0);
    assert |after - {t}| == |after| - (if InRelease(task) then 1 else 0);
  }

  lemma NextConserves(s: System, t: TaskId, step: Step)
    requires Conserved(s)
    ensures Conserved(Next(s, t, step))
  {
    if t in s.tasks {
      var next := Next(s, t, step);
      assert s.tasks == s.tasks[t := s.tasks[t]];
      assert next.tasks == s.tasks[t := next.tasks[t]];
      HoldingAfter(s.tasks, t, next.tasks[t]);
      ReleasingAfter(s.tasks, t, next.tasks[t]);
      if next.excess > 0 {
        assert t !in HoldingTasks(s.tasks);
        assert HoldingTasks(next.tasks) == {};
      }
    }
  }

  /**
   Under every interleaving of acquiring, giving back, forgetting and releasing:
   permits + held + active + releases in flight == MAX + excess, excess leaves no permit, and the
   number of active Work Sources never exceeds 170 or the number found at startup.
   */
  lemma {:induction false} CapacityIsConserved(active: nat, tasks: set<TaskId>, steps: seq<(TaskId, Step)>)
    ensures Conserved(Run(active, tasks, steps))
    ensures Run(active, tasks, steps).active <= if active <= 170 then 170 else active
    ensures Run(active, tasks, steps).excess <= Saturating(active, 170)
  {
    if steps == [] {
      var s := Init(active, tasks);
      assert HoldingTasks(s.tasks) == {} && ReleasingTasks(s.tasks) == {};
    } else {
      CapacityIsConserved(active, tasks, steps[..|steps| - 1]);
      NextConserves(Run(active, tasks, steps[..|steps| - 1]), steps[|steps| - 1].0, steps[|steps| - 1].1);
    }
  }

  /** When no task is under way, the free permits are exactly the room left below the maximum. */
  lemma {:induction false} IdleSystemHasExactRoom(active: nat, tasks: set<TaskId>, steps: seq<(TaskId, Step)>)
    requires forall t | t in Run(active, tasks, steps).tasks :: Run(active, tasks, steps).tasks[t] == Idle
    ensures var s := Run(active, tasks, steps);
            s.permits == Saturating(MAX, s.active) && s.excess == Saturating(s.active, MAX)
  {
    CapacityIsConserved(active, tasks, steps);
    var s := Run(active, tasks, steps);
    assert HoldingTasks(s.tasks) == {} && ReleasingTasks(s.tasks) == {};
  }

  /** Left to itself, one release takes effect: after loading, a single exchange or permit ends it. */
  lemma {:induction false} ReleaseTakesEffect(s: System, t: TaskId)
    requires t in s.tasks && s.tasks[t] == Releasing
    ensures var loaded := Next(s, t, LoadExcess);
            if s.excess > 0
            then Next(loaded, t, CompareExchange(false)) == s.(excess := s.excess - 1, tasks := s.tasks[t := Idle])
            else Next(loaded, t, AddPermit) == s.(permits := s.permits + 1, tasks := s.tasks[t := Idle])
  {
    var loaded := Next(s, t, LoadExcess);
    assert loaded == To(s, t, Observed(s.excess));
    assert loaded.tasks[t := Idle] == s.tasks[t := Idle];
  }

  /** A free permit is taken, and only a free one; it is given back, or turned into an active Work Source. */
  lemma {:induction false} AcquiringTakesEffect(s: System, t: TaskId)
    requires t in s.tasks && s.tasks[t] == Idle
    ensures var taken := Next(s, t, TryAcquire);
            if s.permits == 0 then taken == s
            else
              && taken == s.(permits := s.permits - 1, tasks := s.tasks[t := Holding])
              && Next(taken, t, GiveBack) == s.(tasks := s.tasks[t := Idle])
              && Next(taken, t, RecordAndForget)
                 == s.(permits := s.permits - 1, active := s.active + 1, tasks := s.tasks[t := Idle])
  {
    assert s.tasks[t := Holding][t := Idle] == s.tasks[t := Idle];
  }

  /** Removing an active Work Source starts exactly one release. */
  lemma {:induction false} RemovingStartsRelease(s: System, t: TaskId)
    requires t in s.tasks && s.tasks[t] == Idle
    ensures Next(s, t, MarkRemoved)
            == if s.active == 0 then s else s.(active := s.active - 1, tasks := s.tasks[t := Releasing])
  {
  }

  /** An exchange fails exactly when another release was faster, or for no reason, and then looks again. */
  lemma {:induction false} ExchangeRetriesExactlyWhenBeaten(s: System, t: TaskId, observed: nat, spurious: bool)
    requires t in s.tasks && s.tasks[t] == Observed(observed) && observed > 0
    ensures Next(s, t, CompareExchange(spurious))
            == if s.excess == observed && !spurious then s.(excess := observed - 1, tasks := s.tasks[t := Idle])
               else s.(tasks := s.tasks[t := Observed(s.excess)])
  {
  }

  /** The daemon starts with as many permits as there is room for 170, or with the excess over that. */
  lemma {:induction false} StartupCountsWhatIsThere(active: nat, tasks: set<TaskId>)
    ensures var s := Init(active, tasks);
            && s.active == active && s.permits + active == 170 + s.excess
            && (s.permits == 0 || s.excess == 0)
  {
  }
}
