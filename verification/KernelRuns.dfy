/** The kernel as a state machine over its atomic steps: a critical section, a
    tick, or a scheduler pass.  Tasks and interrupt handlers may interleave their
    steps in any order that the enabling conditions allow. */
module KernelRuns {
  import opened Sequences
  import opened KernelModel
  import opened KernelInvariant
  import opened TickRefinement

  datatype Event =
    | OnTick
    | OnSwitch
    | OnYield
    | CallDelay(ms: nat)
    | CallAcquire(prim: PrimId, timeout: nat)
    | CallRelease(prim: PrimId)

  /** What the hardware and the code allow.  Blocking calls come from the current task.  A
      release or a yield may also come from an interrupt handler, so they are allowed at
      any time. */
  predicate Possible(s: State, e: Event)
    requires WF(s)
  {
    match e
    case OnTick => s.launched
    case OnSwitch => s.pending
    case OnYield => true
    case CallDelay(_) => AtCode(s)
    case CallAcquire(o, _) => o < |s.prims| && AtCode(s)
    case CallRelease(o) => o < |s.prims|
  }

  /** What the kernel is meant for: a task that makes a blocking call is RUNNING.  Module
      `Idle` tells when everything possible is of this kind. */
  predicate Enabled(s: State, e: Event)
    requires WF(s)
  {
    Possible(s, e) && (e.CallDelay? || e.CallAcquire? ==> CanRun(s))
  }

  function Step(s: State, e: Event): State
    requires WF(s) && Possible(s, e)
  {
    match e
    case OnTick => Tick(s)
    case OnSwitch => Switch(s)
    case OnYield => Yield(s)
    case CallDelay(ms) => Delay(s, ms)
    case CallAcquire(o, timeout) => Acquire(s, o, timeout).0
    case CallRelease(o) => Release(s, o)
  }

  /** `evs` can be performed one after another from `s`, every call by a RUNNING task. */
  predicate Legal(s: State, evs: seq<Event>)
    decreases |evs|
  {
    && WF(s)
    && (evs == [] || (Enabled(s, evs[0]) && Legal(Step(s, evs[0]), evs[1..])))
  }

  function Exec(s: State, evs: seq<Event>): State
    requires Legal(s, evs)
    decreases |evs|
  {
    if evs == [] then s else Exec(Step(s, evs[0]), evs[1..])
  }

  lemma StepInv(s: State, e: Event)
    requires KInv(s) && Enabled(s, e)
    ensures KInv(Step(s, e))
  {
    match e
    case OnTick => TickInv(s);
    case OnSwitch => SwitchInv(s);
    case OnYield => YieldInv(s);
    case CallDelay(ms) => DelayInv(s, ms);
    case CallAcquire(o, timeout) => AcquireInv(s, o, timeout);
    case CallRelease(o) => ReleaseInv(s, o);
  }

  predicate SameShape(s: State, r: State) {
    && |r.tasks| == |s.tasks| && |r.prims| == |s.prims| && r.maxTasks == s.maxTasks
    && (forall t :: 0 <= t < |s.tasks| ==> r.tasks[t].base == s.tasks[t].base)
    && (forall o :: 0 <= o < |s.prims| ==> (r.prims[o].Mutex? <==> s.prims[o].Mutex?))
  }

  lemma ReleaseFrame(s: State, o: PrimId)
    requires KInv(s) && o < |s.prims|
    ensures SameShape(s, Release(s, o))
  {
    match Chosen(s, o)
    case Some(n) => if s.prims[o].Mutex? { HandoffShape(s, o, n); } else { PostShape(s, o, n); }
    case None =>
  }

  /** A release as a task other than through its priority can see it: the chosen
      waiter is woken, nobody else changes. */
  lemma ReleaseTasks(s: State, o: PrimId)
    requires KInv(s) && o < |s.prims|
    ensures var r := Release(s, o);
            && |r.tasks| == |s.tasks| && r.current == s.current && r.launched && r.ticks == s.ticks
            && (r.pending <==> s.pending || Chosen(s, o).Some?)
            && forall t :: 0 <= t < |s.tasks| ==>
                 r.tasks[t] == (if Chosen(s, o) == Some(t) then Woken(s.tasks[t]) else s.tasks[t])
                               .(priority := r.tasks[t].priority)
  {
    match Chosen(s, o)
    case Some(n) => if s.prims[o].Mutex? { HandoffShape(s, o, n); } else { PostShape(s, o, n); }
    case None =>
  }

  /** Steps neither create nor destroy tasks or primitives, nor change a base priority. */
  lemma StepFrame(s: State, e: Event)
    requires KInv(s) && Enabled(s, e)
    ensures SameShape(s, Step(s, e))
  {
    match e
    case OnTick => TickIsSimultaneous(s);
    case OnSwitch => ScheduleFrame(s.(pending := false));
    case OnYield =>
    case CallDelay(ms) =>
    case CallAcquire(o, timeout) => AcquireShape(s, o, timeout);
    case CallRelease(o) => ReleaseFrame(s, o);
  }

  /** The linkage invariant holds in every reachable state. */
  lemma {:induction false} ReachableInv(s: State, evs: seq<Event>)
    requires KInv(s) && Legal(s, evs)
    ensures KInv(Exec(s, evs))
    decreases |evs|
  {
    if evs == [] {
    } else {
      StepInv(s, evs[0]);
      ReachableInv(Step(s, evs[0]), evs[1..]);
    }
  }

  /** From boot: whatever tasks were created, every run after launch keeps it. */
  lemma BootedRunInv(s: State, evs: seq<Event>)
    requires Booted(s) && s.tasks != []
    requires Legal(Launch(s), evs)
    ensures KInv(Exec(Launch(s), evs))
  {
    LaunchInv(s);
    ReachableInv(Launch(s), evs);
  }

  /** Whom a step wakes by handing over a resource. */
  function Granted(s: State, e: Event): Option<TaskId>
    requires WF(s) && Enabled(s, e)
  {
    if e.CallRelease? then Chosen(s, e.prim) else None
  }

  /** A BLOCKED task is changed by no step other than the tick and the release
      that hands it what it waits for; all it can receive is a donation. */
  lemma BlockedFrame(s: State, e: Event, t: TaskId)
    requires KInv(s) && Enabled(s, e) && t < |s.tasks| && s.tasks[t].state == Blocked
    ensures var r := Step(s, e);
            && |r.tasks| == |s.tasks|
            && (e.OnTick? ==> r.tasks[t] == Ticked(s.tasks[t]))
            && (Granted(s, e) == Some(t) ==> r.tasks[t] == Woken(s.tasks[t]).(priority := r.tasks[t].priority))
            && (!e.OnTick? && Granted(s, e) != Some(t) ==>
                  r.tasks[t] == s.tasks[t].(priority := r.tasks[t].priority))
  {
    hide Release;
    match e
    case OnTick => TickIsSimultaneous(s);
    case OnSwitch => ScheduleFrame(s.(pending := false));
    case OnYield =>
    case CallDelay(ms) =>
    case CallAcquire(o, timeout) =>
    case CallRelease(o) =>
      ReleaseTasks(s, o);
  }

  /** What a caller can tell about its wait: the queue it is in, the answer it will
      read, and the time it has left. */
  datatype WaitView = WaitView(wait: Option<PrimId>, result: Code, sleep: nat)

  function View(t: Tcb): WaitView {
    WaitView(t.wait, t.result, t.sleep)
  }

  /** Only the tick, a grant and the task's own blocking call change that view. */
  function ViewAfter(s: State, e: Event, t: TaskId): WaitView
    requires WF(s) && Enabled(s, e) && t < |s.tasks|
  {
    match e
    case OnTick => View(Ticked(s.tasks[t]))
    case OnSwitch => View(s.tasks[t])
    case OnYield => View(s.tasks[t])
    case CallDelay(ms) =>
      if s.current == Some(t) && ms > 0 then WaitView(None, s.tasks[t].result, ms) else View(s.tasks[t])
    case CallAcquire(o, timeout) =>
      if s.current == Some(t) && Acquire(s, o, timeout).1 == Parked
      then View(ParkedTcb(s.tasks[t], o, timeout)) else View(s.tasks[t])
    case CallRelease(o) =>
      if Chosen(s, o) == Some(t) then WaitView(None, Success, 0) else View(s.tasks[t])
  }

  lemma ViewFrame(s: State, e: Event)
    requires KInv(s) && Enabled(s, e)
    ensures |Step(s, e).tasks| == |s.tasks|
    ensures forall t :: 0 <= t < |s.tasks| ==> View(Step(s, e).tasks[t]) == ViewAfter(s, e, t)
  {
    hide Release, Acquire, Chosen;
    match e
    case OnTick => TickIsSimultaneous(s);
    case OnSwitch => ScheduleFrame(s.(pending := false));
    case OnYield =>
    case CallDelay(ms) =>
    case CallAcquire(o, timeout) => AcquireShape(s, o, timeout);
    case CallRelease(o) => ReleaseTasks(s, o);
  }

  /** The primitive after the step, as a function of what it was. */
  function PrimAfter(s: State, e: Event, o: PrimId): Prim
    requires WF(s) && Enabled(s, e) && o < |s.prims|
  {
    var p := s.prims[o];
    match e
    case OnTick => SetWaiters(p, Drop(p.waiters, Expired(s.tasks, |s.tasks|)))
    case OnSwitch => p
    case OnYield => p
    case CallDelay(_) => p
    case CallAcquire(x, timeout) =>
      if x != o then p
      else (match Acquire(s, o, timeout).1
            case Parked => SetWaiters(p, p.waiters + [s.current.value])
            case Done(code) => if code == Success then Taken(p, s.current) else p)
    case CallRelease(x) => if x != o then p else Given(p, Chosen(s, o))
  }

  /** A primitive after a release that hands it to `next`. */
  function Given(p: Prim, next: Option<TaskId>): Prim {
    match p
    case Mutex(_, _, q) =>
      if next.Some? then Mutex(true, next, Without(q, next.value)) else Mutex(false, None, q)
    case Semaphore(n, max, q) =>
      if next.Some? then Semaphore(n, max, Without(q, next.value))
      else Semaphore(if n < max then n + 1 else n, max, q)
  }

  lemma ReleasePrims(s: State, o: PrimId)
    requires KInv(s) && o < |s.prims|
    ensures Release(s, o).prims == s.prims[o := Given(s.prims[o], Chosen(s, o))]
  {
  }

  lemma PrimFrame(s: State, e: Event)
    requires KInv(s) && Enabled(s, e)
    ensures |Step(s, e).prims| == |s.prims|
    ensures forall o :: 0 <= o < |s.prims| ==> Step(s, e).prims[o] == PrimAfter(s, e, o)
  {
    hide Release, Acquire, Chosen;
    match e
    case OnTick => TickIsSimultaneous(s);
    case OnSwitch => ScheduleFrame(s.(pending := false));
    case OnYield =>
    case CallDelay(ms) =>
    case CallAcquire(o, timeout) => AcquireShape(s, o, timeout);
    case CallRelease(o) => ReleasePrims(s, o);
  }
}
