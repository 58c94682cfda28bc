/** How long a sleep or a timed wait lasts, and how it ends. */
module Timing {
  import opened KernelModel
  import opened KernelInvariant
  import opened TickRefinement
  import opened KernelRuns

  function Ticks(evs: seq<Event>): nat {
    if evs == [] then 0 else (if evs[0].OnTick? then 1 else 0) + Ticks(evs[1..])
  }

  /** Some release during the run handed task `t` the resource. */
  predicate EverGranted(s: State, evs: seq<Event>, t: TaskId)
    requires Legal(s, evs)
    decreases |evs|
  {
    evs != [] && (Granted(s, evs[0]) == Some(t) || EverGranted(Step(s, evs[0]), evs[1..], t))
  }

  predicate Sleeping(s: State, t: TaskId, k: nat)
    requires t < |s.tasks|
  {
    s.tasks[t].state == Blocked && s.tasks[t].wait == None && s.tasks[t].sleep == k
  }

  /** A task that has slept its time out. */
  predicate Rested(s: State, t: TaskId, result: Code)
    requires t < |s.tasks|
  {
    && s.tasks[t].state == Ready && s.tasks[t].wait == None && s.tasks[t].sleep == 0
    && s.tasks[t].result == result
  }

  lemma SleepingStep(s: State, e: Event, t: TaskId, k: nat)
    requires KInv(s) && Enabled(s, e) && t < |s.tasks| && Sleeping(s, t, k) && k > 0
    ensures |Step(s, e).tasks| == |s.tasks|
    ensures !e.OnTick? ==> Sleeping(Step(s, e), t, k)
    ensures e.OnTick? && k > 1 ==> Sleeping(Step(s, e), t, k - 1)
    ensures e.OnTick? && k == 1 ==> Rested(Step(s, e), t, s.tasks[t].result)
    ensures !(e.OnTick? && k == 1) ==> Step(s, e).tasks[t].result == s.tasks[t].result
  {
    BlockedFrame(s, e, t);
    if e.CallRelease? {
      assert t !in s.prims[e.prim].waiters;
    }
  }

  /** Through fewer than `k` ticks a sleeper stays BLOCKED, whatever else runs. */
  lemma {:induction false} StillSleeping(s: State, evs: seq<Event>, t: TaskId, k: nat)
    requires KInv(s) && Legal(s, evs) && t < |s.tasks| && Sleeping(s, t, k)
    requires Ticks(evs) < k
    ensures var r := Exec(s, evs);
            && KInv(r) && |r.tasks| == |s.tasks| && Sleeping(r, t, k - Ticks(evs))
            && r.tasks[t].result == s.tasks[t].result
    decreases |evs|
  {
    if evs == [] {
    } else {
      StepInv(s, evs[0]);
      SleepingStep(s, evs[0], t, k);
      StillSleeping(Step(s, evs[0]), evs[1..], t, if evs[0].OnTick? then k - 1 else k);
    }
  }

  /** os_delay(k), k > 0: BLOCKED through ticks 1 to k-1 and READY at tick k,
      under every interleaving `evs` of other steps. */
  lemma ExactSleep(s: State, k: nat, evs: seq<Event>)
    requires KInv(s) && CanRun(s) && k > 0
    requires Legal(Delay(s, k), evs) && Ticks(evs) < k
    ensures var t := s.current.value; var r := Exec(Delay(s, k), evs);
            && KInv(r) && |r.tasks| == |s.tasks| && Enabled(r, OnTick)
            && r.tasks[t].state == Blocked
            && Step(r, OnTick).tasks[t].state == (if Ticks(evs) == k - 1 then Ready else Blocked)
            && (Ticks(evs) == k - 1 ==> Rested(Step(r, OnTick), t, s.tasks[t].result))
  {
    var t := s.current.value;
    DelayInv(s, k);
    StillSleeping(Delay(s, k), evs, t, k);
    SleepingStep(Exec(Delay(s, k), evs), OnTick, t, k - Ticks(evs));
  }

  // ---------- the clock ----------

  /** A tick always advances the 32-bit clock by one and always asks for a pass, even if it
      wakes nobody. */
  lemma TickAlwaysPreempts(s: State)
    requires KInv(s)
    ensures Tick(s).ticks == (s.ticks + 1) % 0x1_0000_0000 && Tick(s).pending
  {
    TickIsSimultaneous(s);
  }

  lemma ClockStep(s: State, e: Event)
    requires KInv(s) && Enabled(s, e)
    ensures !e.OnTick? ==> Step(s, e).ticks == s.ticks
    ensures s.pending && !e.OnSwitch? ==> Step(s, e).pending
  {
    hide Release;
    match e
    case OnTick =>
    case OnSwitch => ScheduleFrame(s.(pending := false));
    case OnYield =>
    case CallDelay(ms) =>
    case CallAcquire(o, timeout) => AcquireShape(s, o, timeout);
    case CallRelease(o) => ReleaseTasks(s, o);
  }

  /** os_ticks counts ticks, modulo 2^32, and nothing else. */
  lemma {:induction false} ClockCountsTicks(s: State, evs: seq<Event>)
    requires KInv(s) && Legal(s, evs) && s.ticks < 0x1_0000_0000
    ensures Exec(s, evs).ticks == (s.ticks + Ticks(evs)) % 0x1_0000_0000
    decreases |evs|
  {
    hide Step, KInv;
    if evs == [] {
    } else {
      StepInv(s, evs[0]);
      ClockStep(s, evs[0]);
      if evs[0].OnTick? {
        TickIsOne(s, evs[0]);
      }
      ClockCountsTicks(Step(s, evs[0]), evs[1..]);
    }
  }

  lemma TickIsOne(s: State, e: Event)
    requires KInv(s) && Enabled(s, e) && e.OnTick?
    ensures Step(s, e).ticks == (s.ticks + 1) % 0x1_0000_0000
  {
    TickAlwaysPreempts(s);
  }

  // ---------- timed waits ----------

  predicate Waiting(s: State, t: TaskId, o: PrimId, k: nat)
    requires t < |s.tasks|
  {
    && s.tasks[t].state == Blocked && s.tasks[t].wait == Some(o)
    && s.tasks[t].sleep == k && s.tasks[t].result == Success
  }

  /** Out of the queue, timer off, with the answer the caller is going to read. */
  predicate Ended(s: State, t: TaskId, code: Code)
    requires t < |s.tasks|
  {
    && Runnable(s.tasks[t]) && s.tasks[t].wait == None
    && s.tasks[t].sleep == 0 && s.tasks[t].result == code
  }

  /** Task `t` itself makes no kernel call during the run; the environment may
      still schedule it in and out. */
  predicate Passive(s: State, evs: seq<Event>, t: TaskId)
    requires Legal(s, evs)
    decreases |evs|
  {
    evs == [] ||
    (&& ((evs[0].CallDelay? || evs[0].CallAcquire?) ==> s.current != Some(t))
     && Passive(Step(s, evs[0]), evs[1..], t))
  }

  lemma WaitingStep(s: State, e: Event, t: TaskId, o: PrimId, k: nat)
    requires KInv(s) && Enabled(s, e) && t < |s.tasks| && Waiting(s, t, o, k)
    ensures |Step(s, e).tasks| == |s.tasks|
    ensures Granted(s, e) == Some(t) ==> e == CallRelease(o) && Ended(Step(s, e), t, Success)
    ensures Granted(s, e) != Some(t) && !(e.OnTick? && k > 0) ==> Waiting(Step(s, e), t, o, k)
    ensures e.OnTick? && k > 1 ==> Waiting(Step(s, e), t, o, k - 1)
    ensures e.OnTick? && k == 1 ==> Ended(Step(s, e), t, Timeout)
  {
    BlockedFrame(s, e, t);
    if e.CallRelease? && Chosen(s, e.prim) == Some(t) {
      assert s.tasks[t].wait == Some(e.prim);
    }
  }

  /** Once a wait has ended no step but the task's own changes its answer. */
  lemma EndedStep(s: State, e: Event, t: TaskId, code: Code)
    requires KInv(s) && Enabled(s, e) && t < |s.tasks| && Ended(s, t, code)
    requires (e.CallDelay? || e.CallAcquire?) ==> s.current != Some(t)
    ensures |Step(s, e).tasks| == |s.tasks| && Ended(Step(s, e), t, code)
    ensures Granted(s, e) != Some(t)
  {
    hide Release;
    match e
    case OnTick => TickIsSimultaneous(s);
    case OnSwitch => ScheduleFrame(s.(pending := false));
    case OnYield =>
    case CallDelay(ms) =>
    case CallAcquire(o, timeout) =>
    case CallRelease(o) =>
      assert t !in s.prims[o].waiters;
      ReleaseTasks(s, o);
  }

  lemma {:induction false} StaysEnded(s: State, evs: seq<Event>, t: TaskId, code: Code)
    requires KInv(s) && Legal(s, evs) && t < |s.tasks| && Ended(s, t, code) && Passive(s, evs, t)
    ensures |Exec(s, evs).tasks| == |s.tasks| && Ended(Exec(s, evs), t, code)
    ensures !EverGranted(s, evs, t)
    decreases |evs|
  {
    if evs == [] {
    } else {
      EndedStep(s, evs[0], t, code);
      StepInv(s, evs[0]);
      StaysEnded(Step(s, evs[0]), evs[1..], t, code);
    }
  }

  /** How a wait that began with a deadline of `k` ticks (0: none) stands after
      `ticks` ticks, given whether a release has chosen the task meanwhile. */
  predicate WaitStands(r: State, t: TaskId, o: PrimId, k: nat, ticks: nat, granted: bool)
    requires t < |r.tasks|
  {
    if granted then Ended(r, t, Success)
    else if k == 0 then Waiting(r, t, o, 0)
    else if ticks < k then Waiting(r, t, o, k - ticks)
    else Ended(r, t, Timeout)
  }

  /** Timeout and handoff exclude each other.  Along any run after task `t` blocks,
      `t` is in exactly one of three situations: handed the resource by a release and
      about to report OS_SUCCESS; still queued with exactly the remaining time on its
      timer; or, when `k` ticks passed and no release had chosen it, about to report
      OS_TIMEOUT. */
  lemma {:induction false} WaitEnds(s: State, evs: seq<Event>, t: TaskId, o: PrimId, k: nat)
    requires KInv(s) && Legal(s, evs) && t < |s.tasks| && Waiting(s, t, o, k) && Passive(s, evs, t)
    ensures |Exec(s, evs).tasks| == |s.tasks|
    ensures WaitStands(Exec(s, evs), t, o, k, Ticks(evs), EverGranted(s, evs, t))
    decreases |evs|
  {
    if evs == [] {
    } else {
      var e := evs[0];
      var s' := Step(s, e);
      WaitingStep(s, e, t, o, k);
      StepInv(s, e);
      if Granted(s, e) == Some(t) {
        StaysEnded(s', evs[1..], t, Success);
      } else if e.OnTick? && k == 1 {
        StaysEnded(s', evs[1..], t, Timeout);
      } else {
        WaitEnds(s', evs[1..], t, o, if e.OnTick? && k > 0 then k - 1 else k);
      }
    }
  }

  lemma ParkedWaits(s: State, o: PrimId, timeout: nat)
    requires KInv(s) && CanRun(s) && o < |s.prims|
    requires Acquire(s, o, timeout).1 == Parked
    ensures var p := Acquire(s, o, timeout).0;
            && KInv(p) && |p.tasks| == |s.tasks| && timeout != 0
            && Waiting(p, s.current.value, o, if timeout == WAIT_FOREVER then 0 else timeout)
  {
    AcquireInv(s, o, timeout);
    AcquireOutcome(s, o, timeout);
  }

  /** The same, stated of the call: an acquire that parks with `timeout` is over by
      the `timeout`-th tick, and its return code is OS_SUCCESS exactly when a release
      chose it and OS_TIMEOUT exactly when none did. */
  lemma AcquireEnds(s: State, o: PrimId, timeout: nat, evs: seq<Event>)
    requires KInv(s) && CanRun(s) && o < |s.prims|
    requires Acquire(s, o, timeout).1 == Parked
    requires Legal(Acquire(s, o, timeout).0, evs)
    requires Passive(Acquire(s, o, timeout).0, evs, s.current.value)
    ensures var t := s.current.value; var p := Acquire(s, o, timeout).0; var r := Exec(p, evs);
            && |r.tasks| == |s.tasks|
            && (timeout != 0xFFFF_FFFF && Ticks(evs) >= timeout ==> r.tasks[t].wait == None)
            && (r.tasks[t].wait == None ==>
                  && (r.tasks[t].result == Success <==> EverGranted(p, evs, t))
                  && (r.tasks[t].result == Timeout <==> !EverGranted(p, evs, t))
                  && (r.tasks[t].result == Timeout ==> timeout != 0xFFFF_FFFF && Ticks(evs) >= timeout))
  {
    ParkedWaits(s, o, timeout);
    WaitEnds(Acquire(s, o, timeout).0, evs, s.current.value, o,
             if timeout == WAIT_FOREVER then 0 else timeout);
  }
}
