/** What happens without an idle task.  The only task waits for a semaphore nobody has
    posted; the pass finds nobody to run; and the processor goes back into the BLOCKED task,
    whose acquire returns the OS_SUCCESS that was stored when it began to wait. */
module NoIdleExample {
  import opened KernelModel
  import opened KernelInvariant
  import opened KernelRuns
  import opened Idle
  import opened Protocol

  /** One task and one semaphore without a token. */
  function Boot(): State {
    State(1, [FreshTcb(1)], Some(0), [Semaphore(0, 1, [])], 0, false, false)
  }

  function Only(state: TaskState, wait: Option<PrimId>): Tcb {
    Tcb(state, 1, 1, 0, wait, Success)
  }

  function At(t: Tcb, pending: bool): State {
    State(1, [t], Some(0), [Semaphore(0, 1, if t.wait.Some? then [0] else [])], 0, true, pending)
  }

  function X(k: State, call: Option<PrimId>, taken: nat): Sys {
    Sys(k, [call], [false], {}, [0], [0], [taken])
  }

  function AtStart(): Sys {
    X(At(Only(Running, None), false), None, 0)
  }

  function Waiting(): Sys {
    X(At(Only(Blocked, Some(0)), true), Some(0), 0)
  }

  function Stayed(): Sys {
    X(At(Only(Blocked, Some(0)), false), Some(0), 0)
  }

  function Fooled(): Sys {
    X(At(Only(Blocked, Some(0)), false), None, 1)
  }

  lemma Launched()
    ensures Booted(Boot()) && Launch(Boot()) == AtStart().k && Started(AtStart(), [0])
  {
    LaunchInv(Boot());
    assert Scan(Boot().tasks, 1, 0) == None;
    assert Scan(Boot().tasks, 1, 1) == Some(0);
  }

  lemma Parks()
    ensures WellSized(AtStart()) && SysPossible(AtStart(), Kernel(CallAcquire(0, WAIT_FOREVER)))
    ensures SysStep(AtStart(), Kernel(CallAcquire(0, WAIT_FOREVER))) == Waiting()
  {
    assert [] + [0] == [0];
  }

  lemma Stays()
    ensures WellSized(Waiting()) && SysPossible(Waiting(), Kernel(OnSwitch))
    ensures SysStep(Waiting(), Kernel(OnSwitch)) == Stayed() && !SomebodyCanRun(Waiting().k)
  {
    assert Scan(Waiting().k.tasks, 1, 0) == None;
    assert Scan(Waiting().k.tasks, 1, 1) == None;
  }

  lemma Returns()
    ensures WellSized(Stayed()) && SysPossible(Stayed(), Return) && SysStep(Stayed(), Return) == Fooled()
    ensures Stayed().k.tasks[0].result == Success && Stayed().k.prims[0].waiters == [0]
    ensures !Awake(Stayed().k) && !SysEnabled(Stayed(), Return)
  {
  }

  lemma OutOfBalance()
    ensures WellSized(Fooled()) && Fooled().posts == [0] && Fooled().taken == [1]
    ensures !ConservedAt(Fooled(), [0], 0)
  {
  }

  /** Every step is possible.  At the end an acquire has reported OS_SUCCESS, to a BLOCKED
      task still in the queue, though no token was there and none was posted: without the
      idle task the balance of `SemaphoreConservation` and the honesty of `ReturnIsHonest`
      fail. */
  lemma ReturnsWhileBlocked()
    ensures Booted(Boot()) && Launch(Boot()) == AtStart().k && Started(AtStart(), [0])
    ensures SysPossible(AtStart(), Kernel(CallAcquire(0, WAIT_FOREVER)))
    ensures SysStep(AtStart(), Kernel(CallAcquire(0, WAIT_FOREVER))) == Waiting()
    ensures WellSized(Waiting()) && SysPossible(Waiting(), Kernel(OnSwitch)) && !SomebodyCanRun(Waiting().k)
    ensures SysStep(Waiting(), Kernel(OnSwitch)) == Stayed()
    ensures WellSized(Stayed()) && SysPossible(Stayed(), Return)
    ensures Stayed().k.tasks[0].result == Success && Stayed().k.prims[0].waiters == [0]
    ensures !Awake(Stayed().k) && !SysEnabled(Stayed(), Return)
    ensures SysStep(Stayed(), Return) == Fooled()
    ensures WellSized(Fooled()) && Fooled().posts == [0] && Fooled().taken == [1]
    ensures !ConservedAt(Fooled(), [0], 0)
  {
    hide SysStep, SysPossible, ByCurrent, Started, Booted, Launch, Step, ConservedAt, SomebodyCanRun;
    Launched();
    Parks();
    Stays();
    Returns();
    OutOfBalance();
  }
}
