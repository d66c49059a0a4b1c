/**
 Quiescing the daemon and fencing client registration, at the granularity of single atomic
 operations and of the registry mutex (crates/sylvops-daemon/src/daemon.rs:303-394, 1223-1245 and
 5367-5388).

 Every atomic operation is one sequentially consistent step of one thread; the code's Acquire and
 Release orderings are weaker. `epoch` counts `notify_waiters` calls: a `Notified` future is woken by
 every call made after the future was created.
 */
module Lifecycle {
  import opened Wrappers

  type ThreadId = nat
  type ProcessId = nat

  const U32_RANGE: int := 0x1_0000_0000

  datatype Pc =
    | Idle
    // begin, and dropping an activity
    | FlagSeenClear          // first load saw no quiescing
    | Entered                // counter incremented, second load still to come
    | Retreating             // second load saw quiescing, counter still to be decremented
    | Live                   // holds a LifecycleActivity
    | Notifying              // decremented the counter from one, notify_waiters still to come
    // quiesce, and dropping its guard
    | Draining               // owns the flag, at the head of the loop
    | Listening(since: nat)  // Notified future created
    | Blocked(since: nat)    // counter was not zero, awaiting the future
    | GivingUp               // deadline passed, flag still to be cleared
    | Held(committed: bool)  // holds a LifecycleQuiesce
    | Releasing              // flag cleared, notify_waiters still to come
    // client registration
    | Registering(process: ProcessId)  // holds the registry mutex
    | Admitted(process: ProcessId)     // holds the mutex, flag seen clear
    | Connected(process: ProcessId)
    | Closing(process: ProcessId)      // holds the mutex

  /** `sealed` and `fence` are history: a guard was committed; the registry was found clear for a requester. */
  datatype System = System(
    quiescing: bool,
    activities: nat,
    epoch: nat,
    threads: map<ThreadId, Pc>,
    mutex: Option<ThreadId>,
    processes: map<ProcessId, nat>,
    sealed: bool,
    fence: Option<ProcessId>)

  datatype Step =
    | LoadFlag
    | Increment
    | Recheck
    | Decrement
    | Notify
    | SetFlag
    | Listen
    | LoadCount
    | Wake
    | TimeOut
    | Commit
    | DropGuard
    | Survey(requester: ProcessId)
    | LockToRegister(process: ProcessId)
    | CheckFlag
    | Register
    | LockToClose
    | Unregister

  predicate Counted(pc: Pc) {
    pc.Entered? || pc.Retreating? || pc.Live?
  }

  predicate Owns(pc: Pc) {
    pc.Draining? || pc.Listening? || pc.Blocked? || pc.GivingUp? || pc.Held?
  }

  predicate InMutex(pc: Pc) {
    pc.Registering? || pc.Admitted? || pc.Closing?
  }

  predicate Attached(pc: Pc, p: ProcessId) {
    (pc.Connected? || pc.Closing?) && pc.process == p
  }

  function To(s: System, t: ThreadId, pc: Pc): System {
    s.(threads := s.threads[t := pc])
  }

  function Init(threads: set<ThreadId>): System {
    System(false, 0, 0, map t | t in threads :: Idle, None, map[], false, None)
  }

  /** One step of thread `t`; a step that is not enabled changes nothing. */
  function Next(s: System, t: ThreadId, step: Step): System {
    if t !in s.threads then s
    else
      match (step, s.threads[t])
      case (LoadFlag, Idle) => if s.quiescing then s else To(s, t, FlagSeenClear)
      case (Increment, FlagSeenClear) => To(s.(activities := (s.activities + 1) % U32_RANGE), t, Entered)
      case (Recheck, Entered) => To(s, t, if s.quiescing then Retreating else Live)
      case (Decrement, Retreating) => Decremented(s, t)
      case (Decrement, Live) => Decremented(s, t)
      case (Notify, Notifying) => To(s.(epoch := s.epoch + 1), t, Idle)
      case (Notify, Releasing) => To(s.(epoch := s.epoch + 1), t, Idle)
      case (SetFlag, Idle) => if s.quiescing then s else To(s.(quiescing := true), t, Draining)
      case (Listen, Draining) => To(s, t, Listening(s.epoch))
      case (LoadCount, Listening(since)) => To(s, t, if s.activities == 0 then Held(false) else Blocked(since))
      case (Wake, Blocked(since)) => if s.epoch != since then To(s, t, Draining) else s
      case (TimeOut, Blocked(_)) => To(s, t, GivingUp)
      case (DropGuard, GivingUp) => To(s.(quiescing := false), t, Releasing)
      case (Commit, Held(_)) => To(s.(sealed := true), t, Held(true))
      case (DropGuard, Held(false)) => To(s.(quiescing := false, fence := None), t, Releasing)
      case (DropGuard, Held(true)) => To(s, t, Idle)
      case (Survey(requester), Held(_)) =>
        if s.mutex.None? && (forall p | p in s.processes :: p == requester) then s.(fence := Some(requester)) else s
      case (LockToRegister(p), Idle) => if s.mutex.None? then To(s.(mutex := Some(t)), t, Registering(p)) else s
      case (CheckFlag, Registering(p)) =>
        if s.quiescing then To(s.(mutex := None), t, Idle) else To(s, t, Admitted(p))
      case (Register, Admitted(p)) =>
        To(s.(mutex := None, processes := s.processes[p := Count(s.processes, p) + 1]), t, Connected(p))
      case (LockToClose, Connected(p)) => if s.mutex.None? then To(s.(mutex := Some(t)), t, Closing(p)) else s
      case (Unregister, Closing(p)) => To(s.(mutex := None, processes := Removed(s.processes, p)), t, Idle)
      case _ => s
  }

  function Decremented(s: System, t: ThreadId): System {
    To(s.(activities := (s.activities - 1) % U32_RANGE), t, if s.activities == 1 then Notifying else Idle)
  }

  function Count(processes: map<ProcessId, nat>, p: ProcessId): nat {
    if p in processes then processes[p] else 0
  }

  function Removed(processes: map<ProcessId, nat>, p: ProcessId): map<ProcessId, nat> {
    if p !in processes then processes
    else if processes[p] <= 1 then processes - {p}
    else processes[p := processes[p] - 1]
  }

  function Run(threads: set<ThreadId>, steps: seq<(ThreadId, Step)>): System {
    if steps == [] then Init(threads)
    else Next(Run(threads, steps[..|steps| - 1]), steps[|steps| - 1].0, steps[|steps| - 1].1)
  }

  // ----- what every interleaving keeps ----------------------------------------------------------

  ghost function CountedThreads(threads: map<ThreadId, Pc>): set<ThreadId> {
    set t | t in threads && Counted(threads[t])
  }

  ghost function AttachedThreads(threads: map<ThreadId, Pc>, p: ProcessId): set<ThreadId> {
    set t | t in threads && Attached(threads[t], p)
  }

  ghost predicate SomeThread(threads: map<ThreadId, Pc>, pc: Pc) {
    exists t | t in threads :: threads[t] == pc
  }

  /** The counter is exactly the number of threads between their increment and their decrement. */
  ghost predicate CounterInv(s: System) {
    |s.threads| < U32_RANGE && s.activities == |CountedThreads(s.threads)|
  }

  /** One owner at most; the flag is up exactly while there is one, or for good once sealed. */
  ghost predicate FlagInv(s: System) {
    && (forall t, u | t in s.threads && u in s.threads && Owns(s.threads[t]) && Owns(s.threads[u]) :: t == u)
    && (s.quiescing <==> s.sealed || exists t | t in s.threads :: Owns(s.threads[t]))
    && (s.sealed ==> forall t | t in s.threads && Owns(s.threads[t]) :: s.threads[t] == Held(true))
    && (forall t | t in s.threads && s.threads[t] == Held(true) :: s.sealed)
  }

  ghost predicate QuietInv(s: System) {
    s.sealed || SomeThread(s.threads, Held(false)) ==> !SomeThread(s.threads, Live)
  }

  ghost predicate WakeInv(s: System) {
    && (forall t | t in s.threads && (s.threads[t].Listening? || s.threads[t].Blocked?) ::
        s.threads[t].since <= s.epoch)
    && (forall t | t in s.threads && s.threads[t] == Blocked(s.epoch) ::
        s.activities > 0 || SomeThread(s.threads, Notifying))
  }

  ghost predicate MutexInv(s: System) {
    forall t | t in s.threads :: InMutex(s.threads[t]) <==> s.mutex == Some(t)
  }

  /** Each registry entry is exactly the number of that process's live connections. */
  ghost predicate RegistryInv(s: System) {
    && (forall p :: Count(s.processes, p) == |AttachedThreads(s.threads, p)|)
    && (forall p | p in s.processes :: s.processes[p] > 0)
  }

  ghost predicate FenceInv(s: System) {
    s.fence.Some? ==>
      && s.quiescing
      && (s.sealed || SomeThread(s.threads, Held(false)))
      && (forall p | p in s.processes :: p == s.fence.value)
      && (forall t | t in s.threads :: !s.threads[t].Admitted?)
  }

  ghost predicate SystemInv(s: System) {
    CounterInv(s) && FlagInv(s) && QuietInv(s) && WakeInv(s) && MutexInv(s) && RegistryInv(s) && FenceInv(s)
  }

  lemma CountedAfter(threads: map<ThreadId, Pc>, t: ThreadId, pc: Pc)
    requires t in threads
    ensures |threads[t := pc]| == |threads|
    ensures |CountedThreads(threads[t := pc])|
            == |CountedThreads(threads)| + (if Counted(pc) then 1 else 0) - (if Counted(threads[t]) then 1 else 0)
    ensures |CountedThreads(threads[t := pc])| <= |threads|
  {
    var before, after := CountedThreads(threads), CountedThreads(threads[t := pc]);
    assert threads[t := pc].Keys == threads.Keys;
    SubsetSize(after, threads.Keys);
    assert before - {t} == after - {t};
    assert |before - {t}| == |before| - (if Counted(threads[t]) then 1 else 0);
    assert |after - {t}| == |after| - (if Counted(pc) then 1 else 0);
  }

  lemma {:induction false} SubsetSize<T>(a: set<T>, b: set<T>)
    requires a <= b
    ensures |a| <= |b|
  {
    if a != {} {
      var x :| x in a;
      SubsetSize(a - {x}, b - {x});
    }
  }

  lemma AttachedAfter(threads: map<ThreadId, Pc>, t: ThreadId, pc: Pc, p: ProcessId)
    requires t in threads
    ensures |AttachedThreads(threads[t := pc], p)|
            == |AttachedThreads(threads, p)| + (if Attached(pc, p) then 1 else 0)
               - (if Attached(threads[t], p) then 1 else 0)
    ensures Attached(threads[t], p) ==> |AttachedThreads(threads, p)| > 0
  {
    var before, after := AttachedThreads(threads, p), AttachedThreads(threads[t := pc], p);
    assert before - {t} == after - {t};
    assert |before - {t}| == |before| - (if Attached(threads[t], p) then 1 else 0);
    assert |after - {t}| == |after| - (if Attached(pc, p) then 1 else 0);
  }

  /** A step moves one thread and leaves every other where it is. */
  lemma NextMovesOneThread(s: System, t: ThreadId, step: Step)
    requires t in s.threads
    ensures t in Next(s, t, step).threads
    ensures Next(s, t, step).threads == s.threads[t := Next(s, t, step).threads[t]]
  {
    assert s.threads == s.threads[t := s.threads[t]];
  }

  /** `next` differs from `s` in thread `t` only, as far as the threads go. */
  ghost predicate Moved(s: System, next: System, t: ThreadId) {
    t in s.threads && t in next.threads && next.threads == s.threads[t := next.threads[t]]
  }

  /** Neither a decrement nor an increment of this thread's can wrap around. */
  predicate HasRoom(s: System, t: ThreadId)
    requires t in s.threads
  {
    if Counted(s.threads[t]) then 0 < s.activities < U32_RANGE else s.activities + 1 < U32_RANGE
  }

  lemma CounterHasRoom(s: System, t: ThreadId)
    requires CounterInv(s) && t in s.threads
    ensures HasRoom(s, t)
  {
    CountedAfter(s.threads, t, Idle);
    CountedAfter(s.threads, t, Entered);
  }

  ghost predicate CounterEdge(s: System, next: System, t: ThreadId)
    requires Moved(s, next, t)
  {
    next.activities
    == s.activities + (if Counted(next.threads[t]) then 1 else 0) - (if Counted(s.threads[t]) then 1 else 0)
  }

  lemma NextFollowsCounterEdge(s: System, t: ThreadId, step: Step)
    requires t in s.threads && HasRoom(s, t)
    ensures Moved(s, Next(s, t, step), t) && CounterEdge(s, Next(s, t, step), t)
  {
    NextMovesOneThread(s, t, step);
  }

  lemma NextKeepsCounter(s: System, t: ThreadId, step: Step)
    requires CounterInv(s)
    ensures CounterInv(Next(s, t, step))
  {
    if t in s.threads {
      CounterHasRoom(s, t);
      NextFollowsCounterEdge(s, t, step);
      CountedAfter(s.threads, t, Next(s, t, step).threads[t]);
    }
  }

  /** The five ways in which a step may touch the flag, its owner and the seal. */
  ghost predicate FlagEdge(s: System, next: System, t: ThreadId)
    requires Moved(s, next, t)
  {
    var (pc, pc') := (s.threads[t], next.threads[t]);
    || (next.quiescing == s.quiescing && next.sealed == s.sealed && Owns(pc) == Owns(pc')
        && (pc == Held(true) <==> pc' == Held(true))
        && (Owns(pc) ==> pc == Held(true) || pc' != Held(true)))
    || (!s.quiescing && next.quiescing && next.sealed == s.sealed && !Owns(pc) && Owns(pc') && pc' != Held(true))
    || (!next.quiescing && next.sealed == s.sealed && Owns(pc) && pc != Held(true) && !Owns(pc'))
    || (next.quiescing == s.quiescing && next.sealed && pc.Held? && pc' == Held(true))
    || (next.quiescing == s.quiescing && next.sealed == s.sealed && pc == Held(true) && !Owns(pc'))
  }

  lemma NextFollowsFlagEdge(s: System, t: ThreadId, step: Step)
    requires t in s.threads
    ensures Moved(s, Next(s, t, step), t) && FlagEdge(s, Next(s, t, step), t)
  {
    NextMovesOneThread(s, t, step);
  }

  lemma FlagEdgeKeepsFlag(s: System, next: System, t: ThreadId)
    requires FlagInv(s) && Moved(s, next, t) && FlagEdge(s, next, t)
    ensures FlagInv(next)
  {
    assert forall u | u in s.threads && u != t :: next.threads[u] == s.threads[u];
    if next.quiescing && !next.sealed && !Owns(next.threads[t]) {
      var u :| u in s.threads && Owns(s.threads[u]);
      assert u in next.threads && Owns(next.threads[u]);
    }
  }

  lemma NextKeepsFlag(s: System, t: ThreadId, step: Step)
    requires FlagInv(s)
    ensures FlagInv(Next(s, t, step))
  {
    if t in s.threads {
      NextFollowsFlagEdge(s, t, step);
      FlagEdgeKeepsFlag(s, Next(s, t, step), t);
    }
  }

  /** A guard is taken only at counter zero, and an activity begins only under a clear flag. */
  ghost predicate QuietEdge(s: System, next: System, t: ThreadId)
    requires Moved(s, next, t)
  {
    && (next.threads[t] == Held(false) ==> s.threads[t] == Held(false) || s.activities == 0)
    && (next.threads[t] == Live ==> s.threads[t] == Live || !s.quiescing)
    && (next.sealed ==> s.sealed || s.threads[t] == Held(false) || s.threads[t] == Held(true))
  }

  lemma NextFollowsQuietEdge(s: System, t: ThreadId, step: Step)
    requires t in s.threads
    ensures Moved(s, Next(s, t, step), t) && QuietEdge(s, Next(s, t, step), t)
  {
    NextMovesOneThread(s, t, step);
  }

  lemma QuietEdgeKeepsQuiet(s: System, next: System, t: ThreadId)
    requires CounterInv(s) && FlagInv(s) && QuietInv(s) && Moved(s, next, t) && QuietEdge(s, next, t)
    requires FlagInv(next)
    ensures QuietInv(next)
  {
    forall l | l in next.threads && l != t && next.threads[l] == Live
      ensures s.activities > 0 && SomeThread(s.threads, Live)
    {
      assert s.threads[l] == Live && l in CountedThreads(s.threads);
    }
  }

  lemma NextKeepsQuiet(s: System, t: ThreadId, step: Step)
    requires CounterInv(s) && FlagInv(s) && QuietInv(s)
    ensures QuietInv(Next(s, t, step))
  {
    if t in s.threads {
      NextFollowsQuietEdge(s, t, step);
      NextKeepsFlag(s, t, step);
      QuietEdgeKeepsQuiet(s, Next(s, t, step), t);
    }
  }

  /** What a step may do to the epoch and the waiting thread. */
  ghost predicate WakeEdge(s: System, next: System, t: ThreadId)
    requires Moved(s, next, t)
  {
    var (pc, pc') := (s.threads[t], next.threads[t]);
    && s.epoch <= next.epoch
    && (pc == Notifying && pc' != Notifying ==> next.epoch == s.epoch + 1)
    && (pc'.Listening? || pc'.Blocked? ==>
          pc' == Listening(s.epoch) || pc' == pc || (pc'.Blocked? && pc == Listening(pc'.since)))
  }

  /** Only a counted activity blocks a quiescer, and the last one to leave must notify. */
  ghost predicate LastOneNotifies(s: System, next: System, t: ThreadId)
    requires Moved(s, next, t)
  {
    var (pc, pc') := (s.threads[t], next.threads[t]);
    && (pc'.Blocked? && pc' != pc ==> next.activities == s.activities > 0)
    && (next.activities == 0 && s.activities > 0 ==> pc' == Notifying)
  }

  lemma NextFollowsWakeEdge(s: System, t: ThreadId, step: Step)
    requires t in s.threads
    ensures Moved(s, Next(s, t, step), t) && WakeEdge(s, Next(s, t, step), t)
  {
    NextMovesOneThread(s, t, step);
  }

  lemma LastOneToLeaveNotifies(s: System, t: ThreadId, step: Step)
    requires t in s.threads && HasRoom(s, t)
    ensures Moved(s, Next(s, t, step), t) && LastOneNotifies(s, Next(s, t, step), t)
  {
    NextMovesOneThread(s, t, step);
  }

  lemma WakeEdgeKeepsWake(s: System, next: System, t: ThreadId)
    requires WakeInv(s) && Moved(s, next, t) && WakeEdge(s, next, t) && LastOneNotifies(s, next, t)
    ensures WakeInv(next)
  {
    forall q | q in next.threads && next.threads[q] == Blocked(next.epoch)
      ensures next.activities > 0 || SomeThread(next.threads, Notifying)
    {
      if next.activities == 0 && next.threads[t] != Notifying {
        assert s.activities == 0;
        assert q in s.threads && s.threads[q] == next.threads[q];
        assert s.epoch == next.epoch;
        var n :| n in s.threads && s.threads[n] == Notifying;
        assert n in next.threads && next.threads[n] == Notifying;
      }
    }
  }

  lemma NextKeepsWake(s: System, t: ThreadId, step: Step)
    requires CounterInv(s) && WakeInv(s)
    ensures WakeInv(Next(s, t, step))
  {
    if t in s.threads {
      CounterHasRoom(s, t);
      LastOneToLeaveNotifies(s, t, step);
      NextFollowsWakeEdge(s, t, step);
      WakeEdgeKeepsWake(s, Next(s, t, step), t);
    }
  }

  /** A step leaves the mutex alone, takes it when free, or gives it back. */
  ghost predicate MutexEdge(s: System, next: System, t: ThreadId)
    requires Moved(s, next, t)
  {
    var (pc, pc') := (s.threads[t], next.threads[t]);
    || (next.mutex == s.mutex && (InMutex(pc) <==> InMutex(pc')))
    || (s.mutex == None && next.mutex == Some(t) && InMutex(pc'))
    || (InMutex(pc) && !InMutex(pc') && next.mutex == None)
  }

  lemma NextFollowsMutexEdge(s: System, t: ThreadId, step: Step)
    requires t in s.threads
    ensures Moved(s, Next(s, t, step), t) && MutexEdge(s, Next(s, t, step), t)
  {
    NextMovesOneThread(s, t, step);
  }

  lemma NextKeepsMutex(s: System, t: ThreadId, step: Step)
    requires MutexInv(s)
    ensures MutexInv(Next(s, t, step))
  {
    if t in s.threads {
      NextFollowsMutexEdge(s, t, step);
    }
  }

  /** A step leaves the registry alone, adds its own connection or removes it. */
  ghost predicate RegistryEdge(s: System, next: System, t: ThreadId)
    requires Moved(s, next, t)
  {
    var (pc, pc') := (s.threads[t], next.threads[t]);
    || (next.processes == s.processes && forall p :: Attached(pc, p) <==> Attached(pc', p))
    || (&& pc.Admitted? && pc' == Connected(pc.process)
        && next.processes == s.processes[pc.process := Count(s.processes, pc.process) + 1])
    || (pc.Closing? && pc' == Idle && next.processes == Removed(s.processes, pc.process))
  }

  lemma NextFollowsRegistryEdge(s: System, t: ThreadId, step: Step)
    requires t in s.threads
    ensures Moved(s, Next(s, t, step), t) && RegistryEdge(s, Next(s, t, step), t)
  {
    NextMovesOneThread(s, t, step);
  }

  lemma RegistryEdgeKeepsRegistry(s: System, next: System, t: ThreadId)
    requires RegistryInv(s) && Moved(s, next, t) && RegistryEdge(s, next, t)
    ensures RegistryInv(next)
  {
    forall p
      ensures Count(next.processes, p) == |AttachedThreads(next.threads, p)|
    {
      AttachedAfter(s.threads, t, next.threads[t], p);
    }
  }

  lemma NextKeepsRegistry(s: System, t: ThreadId, step: Step)
    requires RegistryInv(s)
    ensures RegistryInv(Next(s, t, step))
  {
    if t in s.threads {
      NextFollowsRegistryEdge(s, t, step);
      RegistryEdgeKeepsRegistry(s, Next(s, t, step), t);
    }
  }

  /** What a step may do to a fence, to the guard behind it and to those it keeps out. */
  ghost predicate FenceEdge(s: System, next: System, t: ThreadId)
    requires Moved(s, next, t)
  {
    var (pc, pc') := (s.threads[t], next.threads[t]);
    && (pc'.Admitted? ==> pc.Admitted? || !s.quiescing)
    && (forall p | p in next.processes :: p in s.processes || pc == Admitted(p))
    && (s.sealed ==> next.sealed)
    && (next.fence.Some? ==>
          || (next.fence == s.fence && (pc == Held(false) ==> pc' == Held(false) || next.sealed))
          || (&& pc.Held? && pc' == pc && s.mutex.None? && next.processes == s.processes
              && forall p | p in s.processes :: p == next.fence.value))
  }

  lemma NextFollowsFenceEdge(s: System, t: ThreadId, step: Step)
    requires t in s.threads
    ensures Moved(s, Next(s, t, step), t) && FenceEdge(s, Next(s, t, step), t)
  {
    NextMovesOneThread(s, t, step);
  }

  lemma FenceEdgeKeepsFence(s: System, next: System, t: ThreadId)
    requires FlagInv(s) && MutexInv(s) && FenceInv(s) && Moved(s, next, t) && FenceEdge(s, next, t)
    requires FlagInv(next)
    ensures FenceInv(next)
  {
    if next.fence.Some? && !next.sealed {
      if h :| h in s.threads && s.threads[h] == Held(false) && h != t {
        assert next.threads[h] == Held(false);
      } else {
        assert next.threads[t] == Held(false);
      }
    }
  }

  lemma NextKeepsFence(s: System, t: ThreadId, step: Step)
    requires FlagInv(s) && MutexInv(s) && FenceInv(s)
    ensures FenceInv(Next(s, t, step))
  {
    if t in s.threads {
      NextKeepsFlag(s, t, step);
      NextFollowsFenceEdge(s, t, step);
      FenceEdgeKeepsFence(s, Next(s, t, step), t);
    }
  }

  lemma NextKeepsInv(s: System, t: ThreadId, step: Step)
    requires SystemInv(s)
    ensures SystemInv(Next(s, t, step))
  {
    NextKeepsCounter(s, t, step);
    NextKeepsFlag(s, t, step);
    NextKeepsQuiet(s, t, step);
    NextKeepsWake(s, t, step);
    NextKeepsMutex(s, t, step);
    NextKeepsRegistry(s, t, step);
    NextKeepsFence(s, t, step);
  }

  lemma {:induction false} EveryRunKeepsInv(threads: set<ThreadId>, steps: seq<(ThreadId, Step)>)
    requires |threads| < U32_RANGE
    ensures SystemInv(Run(threads, steps))
  {
    if steps == [] {
      var s := Init(threads);
      assert s.threads.Keys == threads;
      assert CountedThreads(s.threads) == {};
      forall p
        ensures AttachedThreads(s.threads, p) == {}
      {
      }
    } else {
      EveryRunKeepsInv(threads, steps[..|steps| - 1]);
      NextKeepsInv(Run(threads, steps[..|steps| - 1]), steps[|steps| - 1].0, steps[|steps| - 1].1);
    }
  }

  // ----- main results ---------------------------------------------------------------------------

  /**
   Under every interleaving: the counter is exact, at most one thread owns the flag, and while a
   quiesce guard is held no activity is live.
   */
  lemma {:induction false} NothingRunsWhileQuiesced(threads: set<ThreadId>, steps: seq<(ThreadId, Step)>)
    requires |threads| < U32_RANGE
    ensures var s := Run(threads, steps);
            && s.activities == |set t | t in s.threads && Counted(s.threads[t])|
            && (forall t, u | t in s.threads && u in s.threads && Owns(s.threads[t]) && Owns(s.threads[u]) :: t == u)
            && (forall t, u | t in s.threads && u in s.threads && s.threads[t].Held? :: !s.threads[u].Live?)
  {
    EveryRunKeepsInv(threads, steps);
    var s := Run(threads, steps);
    assert CountedThreads(s.threads) == set t | t in s.threads && Counted(s.threads[t]);
    forall t, u | t in s.threads && u in s.threads && s.threads[t].Held?
      ensures !s.threads[u].Live?
    {
      assert s.threads[t] == Held(true) || s.threads[t] == Held(false);
    }
  }

  lemma SealStays(s: System, t: ThreadId, step: Step)
    requires s.sealed
    ensures Next(s, t, step).sealed
  {
  }

  lemma {:induction false} SealStaysForGood(threads: set<ThreadId>, steps: seq<(ThreadId, Step)>, i: nat)
    requires i <= |steps| && Run(threads, steps[..i]).sealed
    ensures Run(threads, steps).sealed
  {
    if i == |steps| {
      assert steps[..i] == steps;
    } else {
      var before := steps[..|steps| - 1];
      assert before[..i] == steps[..i];
      SealStaysForGood(threads, before, i);
      SealStays(Run(threads, before), steps[|steps| - 1].0, steps[|steps| - 1].1);
    }
  }

  /** Once a guard has been committed, the flag stays up, no activity is live and none ever begins again. */
  lemma {:induction false} NothingRunsAfterCommit(threads: set<ThreadId>, steps: seq<(ThreadId, Step)>, i: nat,
      t: ThreadId)
    requires |threads| < U32_RANGE && i <= |steps|
    requires t in Run(threads, steps[..i]).threads && Run(threads, steps[..i]).threads[t] == Held(true)
    ensures Run(threads, steps).quiescing
    ensures forall u | u in Run(threads, steps).threads :: Run(threads, steps).threads[u] != Live
  {
    EveryRunKeepsInv(threads, steps[..i]);
    SealStaysForGood(threads, steps, i);
    EveryRunKeepsInv(threads, steps);
  }

  /** Woken with nothing counted, the quiescer takes the guard in three steps of its own. */
  lemma WokenQuiescerTakesGuard(s: System, q: ThreadId)
    requires q in s.threads && s.threads[q].Blocked? && s.epoch != s.threads[q].since && s.activities == 0
    ensures Next(Next(Next(s, q, Wake), q, Listen), q, LoadCount).threads[q] == Held(false)
  {
    var woken := Next(s, q, Wake);
    assert woken == To(s, q, Draining);
    var listening := Next(woken, q, Listen);
    assert listening == To(woken, q, Listening(s.epoch));
  }

  /**
   No wake-up is lost: whenever the quiescer waits and nothing is counted, its notification has
   arrived and three steps of its own take the guard, or some thread stands right before sending it.
   */
  lemma {:induction false} NoWakeUpIsLost(threads: set<ThreadId>, steps: seq<(ThreadId, Step)>, q: ThreadId)
    requires |threads| < U32_RANGE
    ensures var s := Run(threads, steps);
            q in s.threads && s.threads[q].Blocked? && s.activities == 0 ==>
              if s.epoch != s.threads[q].since
              then Next(Next(Next(s, q, Wake), q, Listen), q, LoadCount).threads[q] == Held(false)
              else exists t | t in s.threads :: s.threads[t] == Notifying
  {
    EveryRunKeepsInv(threads, steps);
    var s := Run(threads, steps);
    if q in s.threads && s.threads[q].Blocked? && s.activities == 0 {
      if s.epoch != s.threads[q].since {
        WokenQuiescerTakesGuard(s, q);
      } else {
        assert SomeThread(s.threads, Notifying);
      }
    }
  }

  /**
   From the moment the registry was found clear for a requester until its guard is dropped
   uncommitted, no other process is registered or past the point of being refused.
   */
  lemma {:induction false} RegistrationIsFenced(threads: set<ThreadId>, steps: seq<(ThreadId, Step)>)
    requires |threads| < U32_RANGE
    ensures var s := Run(threads, steps);
            s.fence.Some? ==>
              && (forall p | p in s.processes :: p == s.fence.value)
              && (forall t | t in s.threads && s.threads[t].Connected? :: s.threads[t].process == s.fence.value)
              && (forall t | t in s.threads && s.threads[t].Registering? :: Next(s, t, CheckFlag).threads[t] == Idle)
  {
    EveryRunKeepsInv(threads, steps);
    var s := Run(threads, steps);
    forall t | t in s.threads && s.threads[t].Connected?
      ensures s.threads[t].process in s.processes
    {
      ConnectionIsRegistered(s, t);
    }
    forall t | t in s.threads && s.threads[t].Registering? && s.quiescing
      ensures Next(s, t, CheckFlag).threads[t] == Idle
    {
      RaisedFlagRefuses(s, t);
    }
  }

  lemma RaisedFlagRefuses(s: System, t: ThreadId)
    requires t in s.threads && s.threads[t].Registering? && s.quiescing
    ensures Next(s, t, CheckFlag).threads[t] == Idle
  {
  }

  lemma ConnectionIsRegistered(s: System, t: ThreadId)
    requires RegistryInv(s) && t in s.threads && s.threads[t].Connected?
    ensures s.threads[t].process in s.processes
  {
    AttachedAfter(s.threads, t, Idle, s.threads[t].process);
    assert Count(s.processes, s.threads[t].process) > 0;
  }

  /** The fence stays up until an uncommitted guard is dropped, and never moves to another requester by itself. */
  lemma {:induction false} FenceFallsOnlyWithUncommittedGuard(s: System, t: ThreadId, step: Step)
    requires SystemInv(s) && s.fence.Some? && Next(s, t, step).fence != s.fence
    ensures (step == DropGuard && s.threads[t] == Held(false)) || (step.Survey? && s.threads[t].Held?)
  {
  }

  lemma {:induction false} RegistryCountsConnections(threads: set<ThreadId>, steps: seq<(ThreadId, Step)>, p: ProcessId)
    requires |threads| < U32_RANGE
    ensures var s := Run(threads, steps);
            && Count(s.processes, p) == |set t | t in s.threads && Attached(s.threads[t], p)|
            && (p in s.processes <==> exists t | t in s.threads :: Attached(s.threads[t], p))
  {
    EveryRunKeepsInv(threads, steps);
    var s := Run(threads, steps);
    assert AttachedThreads(s.threads, p) == set t | t in s.threads && Attached(s.threads[t], p);
    if t :| t in s.threads && Attached(s.threads[t], p) {
      AttachedAfter(s.threads, t, Idle, p);
    } else {
      assert AttachedThreads(s.threads, p) == {};
    }
  }

  // ----- what a thread achieves when nobody stands in its way ------------------------------------------

  function Runs(s: System, t: ThreadId, steps: seq<Step>): System {
    if steps == [] then s else Next(Runs(s, t, steps[..|steps| - 1]), t, steps[|steps| - 1])
  }

  lemma RunsOne(s: System, t: ThreadId, a: Step)
    ensures Runs(s, t, [a]) == Next(s, t, a)
  {
    assert [a][..0] == [] && Runs(s, t, []) == s;
  }

  lemma RunsTwo(s: System, t: ThreadId, a: Step, b: Step)
    ensures Runs(s, t, [a, b]) == Next(Next(s, t, a), t, b)
  {
    assert [a, b][..1] == [a];
    RunsOne(s, t, a);
  }

  lemma RunsThree(s: System, t: ThreadId, a: Step, b: Step, c: Step)
    ensures Runs(s, t, [a, b, c]) == Next(Next(Next(s, t, a), t, b), t, c)
  {
    assert [a, b, c][..2] == [a, b];
    RunsTwo(s, t, a, b);
  }

  lemma MovedAgain(threads: map<ThreadId, Pc>, t: ThreadId, first: Pc, second: Pc)
    ensures threads[t := first][t := second] == threads[t := second]
  {
  }

  /** What `begin` achieves alone: an activity, counted once, while the flag is down; nothing while it is up. */
  lemma {:induction false} BeginSucceedsExactlyUnderClearFlag(s: System, t: ThreadId)
    requires t in s.threads && s.threads[t] == Idle && s.activities + 1 < 0x1_0000_0000
    ensures Runs(s, t, [LoadFlag, Increment, Recheck])
            == if s.quiescing then s else s.(activities := s.activities + 1, threads := s.threads[t := Live])
  {
    RunsThree(s, t, LoadFlag, Increment, Recheck);
    if !s.quiescing {
      var seen := To(s, t, FlagSeenClear);
      var entered := To(seen.(activities := s.activities + 1), t, Entered);
      assert Next(s, t, LoadFlag) == seen && Next(seen, t, Increment) == entered;
      assert entered.threads[t := Live] == s.threads[t := Live];
    }
  }

  /** A flag raised between the two looks sends the thread back; it takes its count with it. */
  lemma {:induction false} LateFlagTurnsBeginBack(s: System, t: ThreadId)
    requires t in s.threads && s.threads[t] == Entered && s.quiescing && 0 < s.activities < 0x1_0000_0000
    ensures var back := Runs(s, t, [Recheck, Decrement]);
            && back.activities == s.activities - 1 && back.quiescing
            && back.threads == s.threads[t := if s.activities == 1 then Notifying else Idle]
  {
    RunsTwo(s, t, Recheck, Decrement);
    assert Next(s, t, Recheck) == To(s, t, Retreating);
    MovedAgain(s.threads, t, Retreating, if s.activities == 1 then Notifying else Idle);
  }

  /** A dropped activity is uncounted, and the last one wakes everyone who waits. */
  lemma {:induction false} DroppedActivityIsUncounted(s: System, t: ThreadId)
    requires t in s.threads && s.threads[t] == Live && 0 < s.activities < 0x1_0000_0000
    ensures var (dropped, next) := (Next(s, t, Decrement), Runs(s, t, [Decrement, Notify]));
            && dropped.activities == next.activities == s.activities - 1
            && next.threads == s.threads[t := Idle]
            && next.epoch == if s.activities == 1 then s.epoch + 1 else s.epoch
  {
    RunsTwo(s, t, Decrement, Notify);
    var dropped := Next(s, t, Decrement);
    assert dropped.threads[t := Idle] == s.threads[t := Idle];
    if s.activities != 1 {
      assert dropped.threads == s.threads[t := Idle];
    }
  }

  /**
   What `quiesce` achieves alone: the guard at once when nothing is counted, waiting for a wake-up when something
   is, and nothing while another quiescer has the flag.
   */
  lemma {:induction false} QuiesceTakesGuardExactlyWhenQuiet(s: System, t: ThreadId)
    requires t in s.threads && s.threads[t] == Idle
    ensures Runs(s, t, [SetFlag, Listen, LoadCount])
            == if s.quiescing then s
               else s.(quiescing := true,
                       threads := s.threads[t := if s.activities == 0 then Held(false) else Blocked(s.epoch)])
  {
    RunsThree(s, t, SetFlag, Listen, LoadCount);
    if !s.quiescing {
      var draining := To(s.(quiescing := true), t, Draining);
      var listening := To(draining, t, Listening(s.epoch));
      assert Next(s, t, SetFlag) == draining && Next(draining, t, Listen) == listening;
      var last := if s.activities == 0 then Held(false) else Blocked(s.epoch);
      MovedAgain(s.threads, t, Draining, Listening(s.epoch));
      MovedAgain(s.threads, t, Listening(s.epoch), last);
    }
  }

  /** After the start any thread may begin an activity or take the guard, and register its process. */
  lemma {:induction false} EverythingIsOpenAfterStart(threads: set<ThreadId>, t: ThreadId) returns (s: System)
    requires t in threads
    ensures s == Init(threads)
    ensures Runs(s, t, [LoadFlag, Increment, Recheck]) == s.(activities := 1, threads := s.threads[t := Live])
    ensures Runs(s, t, [SetFlag, Listen, LoadCount])
            == s.(quiescing := true, threads := s.threads[t := Held(false)])
  {
    s := AtStart(threads);
    BeginSucceedsExactlyUnderClearFlag(s, t);
    QuiesceTakesGuardExactlyWhenQuiet(s, t);
  }

  lemma AtStart(threads: set<ThreadId>) returns (s: System)
    ensures s == Init(threads) && !s.quiescing && s.activities == 0 && s.mutex.None? && s.processes == map[]
    ensures s.threads.Keys == threads && forall t | t in threads :: s.threads[t] == Idle
  {
    s := Init(threads);
  }

  lemma {:induction false} AnyProcessMayRegisterAfterStart(threads: set<ThreadId>, t: ThreadId, p: ProcessId)
    returns (s: System)
    requires t in threads
    ensures s == Init(threads)
    ensures Runs(s, t, [LockToRegister(p), CheckFlag, Register])
            == s.(processes := map[p := 1], threads := s.threads[t := Connected(p)])
  {
    s := AtStart(threads);
    RegistrationSucceedsUnderClearFlag(s, t, p);
  }

  /** Giving up on the deadline lowers the flag and wakes everyone. */
  lemma {:induction false} DeadlineLowersFlag(s: System, t: ThreadId)
    requires t in s.threads && s.threads[t].Blocked?
    ensures Runs(s, t, [TimeOut, DropGuard, Notify])
            == s.(quiescing := false, epoch := s.epoch + 1, threads := s.threads[t := Idle])
  {
    RunsThree(s, t, TimeOut, DropGuard, Notify);
    var giving := To(s, t, GivingUp);
    var releasing := To(giving.(quiescing := false), t, Releasing);
    assert Next(s, t, TimeOut) == giving && Next(giving, t, DropGuard) == releasing;
    MovedAgain(s.threads, t, GivingUp, Releasing);
    MovedAgain(s.threads, t, Releasing, Idle);
  }

  /** So does dropping a guard that was not committed; the fence falls with it. */
  lemma {:induction false} DroppedGuardLowersFlag(s: System, t: ThreadId)
    requires t in s.threads && s.threads[t] == Held(false)
    ensures Runs(s, t, [DropGuard, Notify])
            == s.(quiescing := false, fence := None, epoch := s.epoch + 1, threads := s.threads[t := Idle])
  {
    RunsTwo(s, t, DropGuard, Notify);
    assert Next(s, t, DropGuard) == To(s.(quiescing := false, fence := None), t, Releasing);
    MovedAgain(s.threads, t, Releasing, Idle);
  }

  /** A committed guard leaves the flag up when it is dropped. */
  lemma {:induction false} CommittedGuardKeepsFlag(s: System, t: ThreadId)
    requires t in s.threads && s.threads[t].Held?
    ensures Runs(s, t, [Commit, DropGuard]) == s.(sealed := true, threads := s.threads[t := Idle])
  {
    RunsTwo(s, t, Commit, DropGuard);
    assert s.threads[t := Held(true)][t := Idle] == s.threads[t := Idle];
  }

  /** The holder of a guard finds the registry clear exactly when no process but the requester is registered. */
  lemma {:induction false} SurveyFindsExactlyTheRequester(s: System, t: ThreadId, requester: ProcessId)
    requires t in s.threads && s.threads[t].Held? && s.mutex.None? && s.fence.None?
    ensures Next(s, t, Survey(requester)).fence == Some(requester) <==> s.processes.Keys <= {requester}
  {
    if s.processes.Keys <= {requester} {
      assert forall p | p in s.processes :: p in s.processes.Keys;
    }
  }

  lemma RegistrationTakesMutex(s: System, t: ThreadId, p: ProcessId)
    requires t in s.threads && s.threads[t] == Idle && s.mutex.None?
    ensures Next(s, t, LockToRegister(p)) == To(s.(mutex := Some(t)), t, Registering(p))
  {
  }

  /** Registering alone is refused while the flag is up, and the mutex given back. */
  lemma {:induction false} RegistrationIsRefusedUnderFlag(s: System, t: ThreadId, p: ProcessId)
    requires t in s.threads && s.threads[t] == Idle && s.mutex.None? && s.quiescing
    ensures Runs(s, t, [LockToRegister(p), CheckFlag]) == s.(threads := s.threads[t := Idle])
  {
    RunsTwo(s, t, LockToRegister(p), CheckFlag);
    RegistrationTakesMutex(s, t, p);
    MovedAgain(s.threads, t, Registering(p), Idle);
  }

  /** While it is down, registering alone counts exactly one more connection of the process. */
  lemma {:induction false} RegistrationSucceedsUnderClearFlag(s: System, t: ThreadId, p: ProcessId)
    requires t in s.threads && s.threads[t] == Idle && s.mutex.None? && !s.quiescing
    ensures Runs(s, t, [LockToRegister(p), CheckFlag, Register])
            == s.(processes := s.processes[p := Count(s.processes, p) + 1], threads := s.threads[t := Connected(p)])
  {
    RunsThree(s, t, LockToRegister(p), CheckFlag, Register);
    RegistrationTakesMutex(s, t, p);
    var registering := To(s.(mutex := Some(t)), t, Registering(p));
    assert Next(registering, t, CheckFlag) == To(registering, t, Admitted(p));
    MovedAgain(s.threads, t, Registering(p), Admitted(p));
    MovedAgain(s.threads, t, Admitted(p), Connected(p));
  }

  /** Closing alone counts one connection less, and the last one takes the process out of the registry. */
  lemma {:induction false} ClosingCountsOneLess(s: System, t: ThreadId, p: ProcessId)
    requires t in s.threads && s.threads[t] == Connected(p) && s.mutex.None? && Count(s.processes, p) > 0
    ensures var next := Runs(s, t, [LockToClose, Unregister]);
            && next.threads == s.threads[t := Idle] && next.mutex.None?
            && Count(next.processes, p) == Count(s.processes, p) - 1
            && (p in next.processes <==> Count(s.processes, p) > 1)
            && forall other | other != p :: Count(next.processes, other) == Count(s.processes, other)
  {
    RunsTwo(s, t, LockToClose, Unregister);
    assert Next(s, t, LockToClose) == To(s.(mutex := Some(t)), t, Closing(p));
    MovedAgain(s.threads, t, Closing(p), Idle);
    RemovedCountsOneLess(s.processes, p);
  }

  lemma RemovedCountsOneLess(processes: map<ProcessId, nat>, p: ProcessId)
    requires Count(processes, p) > 0
    ensures Count(Removed(processes, p), p) == Count(processes, p) - 1
    ensures p in Removed(processes, p) <==> Count(processes, p) > 1
    ensures forall other | other != p :: Count(Removed(processes, p), other) == Count(processes, other)
  {
  }
}
