/** Why a task that executes its own code is RUNNING.  With nobody to run, os_scheduler stays
    where it is and the processor goes back into a task that is BLOCKED; an idle task that
    never blocks rules this out. */
module Idle {
  import opened KernelModel
  import opened KernelInvariant
  import opened TickRefinement
  import opened KernelRuns
  import opened Scheduling

  // ---------- one pass ----------

  /** Unless a switch is about to be made, the current task is RUNNING. */
  predicate Awake(s: State)
    requires WF(s)
  {
    AtCode(s) ==> s.tasks[s.current.value].state == Running
  }

  ghost predicate SomebodyCanRun(s: State) {
    exists t :: 0 <= t < |s.tasks| && Runnable(s.tasks[t])
  }

  /** After a pass the current task is RUNNING exactly if somebody could run. */
  lemma PassAwakes(s: State)
    requires KInv(s)
    ensures KInv(Switch(s)) && (Awake(Switch(s)) <==> SomebodyCanRun(s))
  {
    SwitchInv(s);
    var s0 := s.(pending := false);
    SchedulePicks(s0);
    if !SomebodyCanRun(s) {
      assert forall t :: 0 <= t < |s0.tasks| ==> !Runnable(s0.tasks[t]);
    }
  }

  /** Any other step keeps it so. */
  lemma StepAwake(s: State, e: Event)
    requires KInv(s) && Awake(s) && Enabled(s, e) && !e.OnSwitch?
    ensures KInv(Step(s, e)) && Awake(Step(s, e))
  {
    hide KInv, Step;
    StepInv(s, e);
    KInvWF(s);
    KInvWF(Step(s, e));
    if !Step(s, e).pending {
      QuietStep(s, e);
    }
  }

  /** A run of possible steps. */
  predicate PossibleRun(s: State, evs: seq<Event>)
    decreases |evs|
  {
    && WF(s)
    && (evs == [] || (Possible(s, evs[0]) && PossibleRun(Step(s, evs[0]), evs[1..])))
  }

  predicate AlwaysAwake(s: State, evs: seq<Event>)
    requires PossibleRun(s, evs)
    decreases |evs|
  {
    Awake(s) && (evs == [] || AlwaysAwake(Step(s, evs[0]), evs[1..]))
  }

  ghost predicate PassesFind(s: State, evs: seq<Event>)
    requires PossibleRun(s, evs)
    decreases |evs|
  {
    evs == [] ||
    ((evs[0].OnSwitch? ==> SomebodyCanRun(s)) && PassesFind(Step(s, evs[0]), evs[1..]))
  }

  /** Whoever executes is RUNNING throughout a run exactly if every pass finds somebody to
      run.  The theorems about runs then apply. */
  lemma {:induction false} AwakeRun(s: State, evs: seq<Event>)
    requires KInv(s) && Awake(s) && PossibleRun(s, evs)
    ensures AlwaysAwake(s, evs) <==> PassesFind(s, evs)
    ensures PassesFind(s, evs) ==> Legal(s, evs)
    decreases |evs|
  {
    hide KInv, Tick, Switch, Yield, Delay, Acquire, Release, SomebodyCanRun;
    if evs == [] {
    } else {
      var e := evs[0];
      if e.OnSwitch? {
        PassAwakes(s);
        if SomebodyCanRun(s) {
          AwakeRun(Step(s, e), evs[1..]);
        } else {
          NotAlwaysAwake(Step(s, e), evs[1..]);
        }
      } else {
        KInvWF(s);
        StepAwake(s, e);
        AwakeRun(Step(s, e), evs[1..]);
      }
    }
  }

  lemma NotAlwaysAwake(s: State, evs: seq<Event>)
    requires PossibleRun(s, evs) && !Awake(s)
    ensures !AlwaysAwake(s, evs)
  {
  }

  // ---------- the idle task ----------

  /** The idle task does not block: it may poll, take what is free and delay for no time. */
  predicate IdleNeverBlocks(s: State, e: Event, idle: TaskId)
    requires WF(s) && Possible(s, e)
  {
    s.current == Some(idle) ==>
      && (e.CallDelay? ==> e.ms == 0)
      && (e.CallAcquire? ==> Acquire(s, e.prim, e.timeout).1 != Parked)
  }

  predicate IdleReady(s: State, idle: TaskId) {
    idle < |s.tasks| && Runnable(s.tasks[idle])
  }

  lemma IdleStep(s: State, e: Event, idle: TaskId)
    requires KInv(s) && Enabled(s, e) && IdleReady(s, idle) && IdleNeverBlocks(s, e, idle)
    ensures IdleReady(Step(s, e), idle)
  {
    hide Release, Acquire;
    match e
    case OnTick => TickIsSimultaneous(s);
    case OnSwitch => ScheduleFrame(s.(pending := false));
    case OnYield =>
    case CallDelay(ms) =>
    case CallAcquire(o, timeout) => AcquireShape(s, o, timeout);
    case CallRelease(o) =>
      ReleaseTasks(s, o);
  }

  // ---------- runs ----------

  /** The idle task can run, and whoever executes is RUNNING. */
  predicate Alive(s: State, idle: TaskId) {
    KInv(s) && IdleReady(s, idle) && Awake(s)
  }

  lemma AliveAtLaunch(s: State, idle: TaskId)
    requires Booted(s) && idle < |s.tasks|
    ensures Alive(Launch(s), idle)
  {
    hide KInv, Schedule;
    LaunchInv(s);
    ScheduleFrame(s);
    assert Runnable(s.tasks[idle]);
    SchedulePicks(s);
  }

  /** What is possible is then what the theorems about runs allow. */
  lemma AliveEnables(s: State, e: Event, idle: TaskId)
    requires Alive(s, idle) && Possible(s, e)
    ensures Enabled(s, e)
  {
  }

  lemma AliveStep(s: State, e: Event, idle: TaskId)
    requires Alive(s, idle) && Possible(s, e) && IdleNeverBlocks(s, e, idle)
    ensures Enabled(s, e) && Alive(Step(s, e), idle)
  {
    hide Tick, Switch, Yield, Delay, Acquire, Release, KInv, SomebodyCanRun, IdleReady;
    KInvWF(s);
    AliveEnables(s, e, idle);
    IdleStep(s, e, idle);
    if e.OnSwitch? {
      PassAwakes(s);
      IdleCanRun(s, idle);
    } else {
      StepAwake(s, e);
    }
  }

  lemma IdleCanRun(s: State, idle: TaskId)
    requires IdleReady(s, idle)
    ensures SomebodyCanRun(s)
  {
  }

  /** A run of possible steps in which the idle task does not block. */
  predicate IdleRun(s: State, evs: seq<Event>, idle: TaskId)
    decreases |evs|
  {
    && WF(s)
    && (evs == [] ||
        (&& Possible(s, evs[0]) && IdleNeverBlocks(s, evs[0], idle)
         && IdleRun(Step(s, evs[0]), evs[1..], idle)))
  }

  /** Every such run is one that the theorems are about: each blocking call in it is made by
      a RUNNING task. */
  lemma {:induction false} IdleRunLegal(s: State, evs: seq<Event>, idle: TaskId)
    requires Alive(s, idle) && IdleRun(s, evs, idle)
    ensures Legal(s, evs) && Alive(Exec(s, evs), idle)
    decreases |evs|
  {
    hide Step, Alive, IdleNeverBlocks, Possible;
    if evs == [] {
    } else {
      AliveStep(s, evs[0], idle);
      IdleRunLegal(Step(s, evs[0]), evs[1..], idle);
    }
  }

  /** From boot, then, the linkage invariant needs no hypothesis but that one. */
  lemma BootedIdleRun(s: State, evs: seq<Event>, idle: TaskId)
    requires Booted(s) && idle < |s.tasks| && IdleRun(Launch(s), evs, idle)
    ensures Legal(Launch(s), evs) && Alive(Exec(Launch(s), evs), idle)
  {
    AliveAtLaunch(s, idle);
    IdleRunLegal(Launch(s), evs, idle);
  }
}
