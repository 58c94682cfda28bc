/** Which task a scheduler pass picks, round-robin fairness over whole runs, and the
    steps that request no pass. */
module Scheduling {
  import opened KernelModel
  import opened KernelInvariant
  import opened TickRefinement
  import opened KernelRuns

  /** How many slots past `start` the cyclic scan reaches task `t`. */
  function Distance(n: nat, start: nat, t: TaskId): (d: nat)
    requires start <= n && t < n
    ensures d < n
  {
    if start <= t then t - start else t + n - start
  }

  lemma SlotAt(n: nat, start: nat, k: nat)
    requires start <= n && k < n
    ensures (start + k) % n == (if start + k < n then start + k else start + k - n)
    ensures Distance(n, start, (start + k) % n) == k
  {
  }

  lemma SlotOf(n: nat, start: nat, t: TaskId)
    requires start <= n && t < n
    ensures (start + Distance(n, start, t)) % n == t
  {
  }

  /** READY or RUNNING. */
  predicate CanBePicked(t: Tcb) {
    t.state in {Ready, Running}
  }

  /** `p` is the first highest-priority task that is READY or RUNNING, in cyclic order after
      the current one. */
  ghost predicate IsChoice(s: State, p: TaskId)
    requires WF(s)
  {
    var start := match s.current case Some(c) => c + 1 case None => 0;
    && p < |s.tasks| && CanBePicked(s.tasks[p])
    && (forall t :: 0 <= t < |s.tasks| && CanBePicked(s.tasks[t]) ==> s.tasks[t].priority <= s.tasks[p].priority)
    && (forall t :: 0 <= t < |s.tasks| && CanBePicked(s.tasks[t]) && s.tasks[t].priority == s.tasks[p].priority ==>
          Distance(|s.tasks|, start, p) <= Distance(|s.tasks|, start, t))
  }

  lemma ChoiceUnique(s: State, p: TaskId, q: TaskId)
    requires WF(s) && IsChoice(s, p) && IsChoice(s, q)
    ensures p == q
  {
  }

  lemma {:induction false} ScanFindsBest(tasks: seq<Tcb>, start: nat, k: nat)
    requires |tasks| > 0 && start <= |tasks| && k <= |tasks|
    ensures var best := Scan(tasks, start, k); var n := |tasks|;
            && (best.Some? ==> Distance(n, start, best.value) < k)
            && (forall t :: 0 <= t < n && Runnable(tasks[t]) && Distance(n, start, t) < k ==>
                  && best.Some?
                  && tasks[t].priority <= tasks[best.value].priority
                  && (tasks[t].priority == tasks[best.value].priority ==>
                        Distance(n, start, best.value) <= Distance(n, start, t)))
  {
    if k == 0 {
    } else {
      ScanFindsBest(tasks, start, k - 1);
      var n := |tasks|;
      SlotAt(n, start, k - 1);
      var x := (start + (k - 1)) % n;
      forall t | 0 <= t < n && Distance(n, start, t) == k - 1
        ensures t == x
      {
        SlotOf(n, start, t);
      }
    }
  }

  /** A pass picks exactly the first best task, or stays put when none can run. */
  lemma SchedulePicks(s: State)
    requires WF(s)
    ensures (exists t :: 0 <= t < |s.tasks| && Runnable(s.tasks[t])) ==>
              && Schedule(s).current.Some? && IsChoice(s, Schedule(s).current.value)
              && Schedule(s).tasks[Schedule(s).current.value].state == Running
    ensures !(exists t :: 0 <= t < |s.tasks| && Runnable(s.tasks[t])) ==> Schedule(s) == s
  {
    if s.tasks != [] {
      hide WF;
      ScanFindsBest(s.tasks, ScanStart(s), |s.tasks|);
    }
  }

  // ---------- round-robin fairness ----------

  /** `t` can run and no task that can run outranks it. */
  predicate Top(s: State, t: TaskId) {
    && t < |s.tasks| && Runnable(s.tasks[t])
    && (forall u :: 0 <= u < |s.tasks| && Runnable(s.tasks[u]) ==> s.tasks[u].priority <= s.tasks[t].priority)
  }

  /** Every pass made during the run finds `t` on top. */
  predicate TopAtEveryPass(s: State, evs: seq<Event>, t: TaskId)
    requires Legal(s, evs)
    decreases |evs|
  {
    evs == [] || ((evs[0].OnSwitch? ==> Top(s, t)) && TopAtEveryPass(Step(s, evs[0]), evs[1..], t))
  }

  predicate EverPicked(s: State, evs: seq<Event>, t: TaskId)
    requires Legal(s, evs)
    decreases |evs|
  {
    evs != [] &&
    ((evs[0].OnSwitch? && Step(s, evs[0]).current == Some(t)) || EverPicked(Step(s, evs[0]), evs[1..], t))
  }

  function Passes(evs: seq<Event>): nat {
    if evs == [] then 0 else (if evs[0].OnSwitch? then 1 else 0) + Passes(evs[1..])
  }

  lemma PassProgress(s: State, t: TaskId)
    requires KInv(s) && Top(s, t)
    ensures var r := Switch(s); var n := |s.tasks|;
            && |r.tasks| == n && r.current.Some? && r.current.value < n
            && (r.current != Some(t) ==>
                  Distance(n, ScanStart(r), t) < Distance(n, ScanStart(s), t))
  {
    var s0 := s.(pending := false);
    SchedulePicks(s0);
    var p := Switch(s).current.value;
    SlotOf(|s.tasks|, ScanStart(s), p);
    SlotOf(|s.tasks|, ScanStart(s), t);
  }

  lemma CurrentKept(s: State, e: Event)
    requires KInv(s) && Enabled(s, e) && !e.OnSwitch?
    ensures Step(s, e).current == s.current
  {
    hide Release;
    match e
    case OnTick => TickIsSimultaneous(s);
    case OnYield =>
    case CallDelay(ms) =>
    case CallAcquire(o, timeout) => AcquireShape(s, o, timeout);
    case CallRelease(o) => ReleaseTasks(s, o);
  }

  /** A task that stays ready and of maximal priority is picked before the number of
      passes exceeds its cyclic distance from the current task, whatever happens
      between the passes. */
  lemma {:induction false} PickedWithin(s: State, evs: seq<Event>, t: TaskId)
    requires KInv(s) && t < |s.tasks| && Legal(s, evs) && TopAtEveryPass(s, evs, t)
    requires Passes(evs) > Distance(|s.tasks|, ScanStart(s), t)
    ensures EverPicked(s, evs, t)
    decreases |evs|
  {
    var e := evs[0];
    StepInv(s, e);
    StepFrame(s, e);
    if e.OnSwitch? {
      PassProgress(s, t);
      if Step(s, e).current != Some(t) {
        PickedWithin(Step(s, e), evs[1..], t);
      }
    } else {
      CurrentKept(s, e);
      PickedWithin(Step(s, e), evs[1..], t);
    }
  }

  /** Hence within as many passes as there are tasks. */
  lemma RoundRobin(s: State, evs: seq<Event>, t: TaskId)
    requires KInv(s) && t < |s.tasks| && Legal(s, evs) && TopAtEveryPass(s, evs, t)
    requires Passes(evs) >= |s.tasks|
    ensures EverPicked(s, evs, t)
  {
    PickedWithin(s, evs, t);
  }

  // ---------- preemption ----------

  function CurrentPriority(s: State): nat
    requires WF(s) && s.current.Some?
  {
    s.tasks[s.current.value].priority
  }

  /** The current task gives up a donation in a release that finds nobody waiting. */
  predicate DropsQuietly(s: State, e: Event)
    requires WF(s) && Enabled(s, e) && s.current.Some?
  {
    && e.CallRelease? && s.prims[e.prim].Mutex? && s.prims[e.prim].owner == s.current
    && s.prims[e.prim].waiters == []
    && CurrentPriority(s) > s.tasks[s.current.value].base
  }

  /** A step that requests no switch leaves every task's state alone, and can only
      lower priorities. */
  lemma QuietStep(s: State, e: Event)
    requires KInv(s) && Enabled(s, e) && !e.OnSwitch? && !Step(s, e).pending
    ensures var r := Step(s, e);
            && !s.pending && |r.tasks| == |s.tasks| && r.current == s.current
            && forall t :: 0 <= t < |s.tasks| ==>
                 && r.tasks[t].state == s.tasks[t].state
                 && (r.tasks[t].priority == s.tasks[t].priority ||
                       (&& e.CallRelease? && s.prims[e.prim].Mutex? && s.prims[e.prim].owner == Some(t)
                        && s.prims[e.prim].waiters == []
                        && r.tasks[t].priority == s.tasks[t].base))
  {
    match e
    case OnTick => TickIsSimultaneous(s);
    case OnYield =>
    case CallDelay(ms) =>
    case CallAcquire(o, timeout) => AcquireOutcome(s, o, timeout);
    case CallRelease(o) =>
      ReleaseTasks(s, o);
  }
}
