/** Before and at launch: what creating tasks leaves behind, which task is started, and how
    the calls behave that an application makes before any task runs. */
module StartUp {
  import opened KernelModel
  import opened KernelInvariant
  import opened Scheduling

  // ---------- creating tasks ----------

  /** As os_task_create fills it in: READY, at the priority asked for, waiting for nothing. */
  predicate New(t: Tcb, priority: nat) {
    t.state == Ready && t.base == priority && t.priority == priority
    && t.sleep == 0 && t.wait == None && t.result == Success
  }

  lemma TaskCreateShape(s: State, priority: nat)
    requires |s.tasks| < s.maxTasks
    ensures var r := TaskCreate(s, priority); var n := |s.tasks|;
            && |r.tasks| == n + 1 && r.tasks[..n] == s.tasks && New(r.tasks[n], priority)
            && r.current == (if s.current == None then Some(n) else s.current)
            && r == s.(tasks := r.tasks, current := r.current)
  {
  }

  function CreateAll(s: State, priorities: seq<nat>): State
    requires |s.tasks| + |priorities| <= s.maxTasks
    decreases |priorities|
  {
    if priorities == [] then s else CreateAll(TaskCreate(s, priorities[0]), priorities[1..])
  }

  /** Tasks created one after another each keep what they were created with. */
  lemma {:induction false} CreateAllShape(s: State, priorities: seq<nat>)
    requires |s.tasks| + |priorities| <= s.maxTasks
    ensures var r := CreateAll(s, priorities); var n := |s.tasks|;
            && |r.tasks| == n + |priorities| && r.tasks[..n] == s.tasks
            && (forall i :: 0 <= i < |priorities| ==> New(r.tasks[n + i], priorities[i]))
            && r.current == (if s.current == None && priorities != [] then Some(n) else s.current)
            && r == s.(tasks := r.tasks, current := r.current)
    decreases |priorities|
  {
    if priorities == [] {
    } else {
      var one := TaskCreate(s, priorities[0]);
      var r := CreateAll(one, priorities[1..]);
      var n := |s.tasks|;
      TaskCreateShape(s, priorities[0]);
      CreateAllShape(one, priorities[1..]);
      assert r.tasks[..n] == r.tasks[..n + 1][..n] == s.tasks;
      assert r.tasks[n] == r.tasks[..n + 1][n];
      forall i | 0 <= i < |priorities|
        ensures New(r.tasks[n + i], priorities[i])
      {
        if i > 0 {
          assert New(r.tasks[n + 1 + (i - 1)], priorities[1..][i - 1]);
        }
      }
    }
  }

  // ---------- launch ----------

  /** Launch starts the first highest-priority task in cyclic order after the first one
      created, leaves all others READY and changes nothing else. */
  lemma LaunchPicks(s: State)
    requires Booted(s) && s.tasks != []
    ensures var r := Launch(s);
            && r.current.Some? && IsChoice(s, r.current.value)
            && |r.tasks| == |s.tasks|
            && (forall t :: 0 <= t < |s.tasks| ==>
                  r.tasks[t] == s.tasks[t].(state := if t == r.current.value then Running else Ready))
            && r == s.(tasks := r.tasks, current := r.current, launched := true)
  {
    assert Runnable(s.tasks[0]);
    SchedulePicks(s);
    ScheduleFrame(s);
    hide Schedule;
    var r := Launch(s);
    forall t | 0 <= t < |s.tasks|
      ensures r.tasks[t] == s.tasks[t].(state := if t == r.current.value then Running else Ready)
    {
      assert s.tasks[t] == FreshTcb(s.tasks[t].base);
      assert Runnable(r.tasks[t]);
    }
  }

  /** From an initialised kernel: the tasks created with `priorities`, launched.  Each has
      the priority it was given, and one that none outranks is RUNNING. */
  lemma BootUp(s: State, priorities: seq<nat>)
    requires Booted(s) && s.tasks == [] && s.current == None
    requires 0 < |priorities| <= s.maxTasks
    ensures var c := CreateAll(s, priorities);
            && WF(c) && var r := Launch(c);
            && KInv(r) && |r.tasks| == |priorities| && r.prims == s.prims
            && r.current.Some? && r.current.value < |priorities|
            && (forall i :: 0 <= i < |priorities| ==>
                  && r.tasks[i].base == r.tasks[i].priority == priorities[i]
                  && priorities[i] <= priorities[r.current.value]
                  && r.tasks[i].state == if i == r.current.value then Running else Ready)
  {
    hide KInv, Booted, WF, Launch, CreateAll;
    var c := CreateAll(s, priorities);
    CreatedIsBooted(s, priorities);
    CreateAllShape(s, priorities);
    LaunchInv(c);
    LaunchPicks(c);
    forall i | 0 <= i < |priorities|
      ensures New(c.tasks[i], priorities[i])
    {
      assert New(c.tasks[0 + i], priorities[i]);
    }
    assert forall i :: 0 <= i < |priorities| ==> CanBePicked(c.tasks[i]);
  }

  lemma CreatedIsBooted(s: State, priorities: seq<nat>)
    requires Booted(s) && s.tasks == [] && s.current == None
    requires 0 < |priorities| <= s.maxTasks
    ensures WF(CreateAll(s, priorities)) && Booted(CreateAll(s, priorities))
  {
    CreateAllShape(s, priorities);
    var c := CreateAll(s, priorities);
    forall t | 0 <= t < |c.tasks|
      ensures c.tasks[t] == FreshTcb(c.tasks[t].base)
    {
      assert New(c.tasks[0 + t], priorities[t]);
    }
    assert forall o :: 0 <= o < |s.prims| ==> c.prims[o] == s.prims[o];
  }

  // ---------- calls before launch ----------

  /** Before launch an acquire never parks, whatever its timeout.  A mutex is taken iff it is
      free; its owner, or nobody when no task exists yet, is refused with OS_FAIL and
      anybody else with OS_TIMEOUT. */
  lemma MutexBeforeLaunch(s: State, o: PrimId, timeout: nat)
    requires WF(s) && !s.launched && o < |s.prims| && s.prims[o].Mutex?
    ensures var (r, out) := Acquire(s, o, timeout); var m := s.prims[o];
            && out == Done(if !m.locked then Success else if m.owner == s.current then Fail else Timeout)
            && (if m.locked then r == s
                else r == s.(prims := s.prims[o := Mutex(true, s.current, m.waiters)]))
  {
  }

  lemma SemaphoreBeforeLaunch(s: State, o: PrimId, timeout: nat)
    requires WF(s) && !s.launched && o < |s.prims| && s.prims[o].Semaphore?
    ensures var (r, out) := Acquire(s, o, timeout); var m := s.prims[o];
            && out == Done(if m.count > 0 then Success else Timeout)
            && (if m.count == 0 then r == s
                else r == s.(prims := s.prims[o := Semaphore(m.count - 1, m.max, m.waiters)]))
  {
  }

  /** A delay before launch, or of no time, does nothing. */
  lemma NoDelay(s: State, ms: nat)
    requires WF(s) && (!s.launched || ms == 0)
    ensures Delay(s, ms) == s
  {
  }

  /** At any time: releasing a mutex nobody waits for frees it, returns its owner to its
      base priority and requests no switch. */
  lemma UncontendedRelease(s: State, o: PrimId)
    requires WF(s) && o < |s.prims| && s.prims[o].Mutex? && s.prims[o].waiters == []
    ensures var r := Release(s, o);
            && r == s.(tasks := r.tasks, prims := s.prims[o := Mutex(false, None, [])])
            && |r.tasks| == |s.tasks|
            && forall t :: 0 <= t < |s.tasks| ==>
                 r.tasks[t] == if s.prims[o].owner == Some(t) then s.tasks[t].(priority := s.tasks[t].base)
                               else s.tasks[t]
  {
  }

  /** Posting a semaphore nobody waits for adds one token, up to the maximum. */
  lemma UncontendedPost(s: State, o: PrimId)
    requires WF(s) && o < |s.prims| && s.prims[o].Semaphore? && s.prims[o].waiters == []
    ensures var m := s.prims[o];
            Release(s, o) ==
            s.(prims := s.prims[o := Semaphore(if m.count < m.max then m.count + 1 else m.count, m.max, [])])
  {
  }
}
