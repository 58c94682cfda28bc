/** Mutexes and semaphores as their callers see them.  To the kernel's data this
    adds where each task stands in a blocking acquire, which mutexes it has been
    told it holds, and how many tokens were posted, lost to saturation and taken. */
module Protocol {
  import opened Sequences
  import opened KernelModel
  import opened KernelInvariant
  import opened KernelRuns

  /** `call[t]` is the acquire that task `t` has blocked in and not yet returned from, and
      `chosen[t]` whether a release has chosen `t` since it blocked there;
      `held` the mutexes whose acquire has returned OS_SUCCESS and which have not been
      released; `posts`, `lost` and `taken` count, per semaphore, the releases, the
      releases that found it saturated, and the acquires that returned OS_SUCCESS. */
  datatype Sys = Sys(k: State, call: seq<Option<PrimId>>, chosen: seq<bool>, held: set<(TaskId, PrimId)>,
                     posts: seq<nat>, lost: seq<nat>, taken: seq<nat>)

  datatype SysEvent = Kernel(e: Event) | Return

  predicate WellSized(x: Sys) {
    && WF(x.k) && |x.call| == |x.chosen| == |x.k.tasks|
    && |x.posts| == |x.lost| == |x.taken| == |x.k.prims|
    && (forall t :: 0 <= t < |x.call| && x.call[t].Some? ==> x.call[t].value < |x.k.prims|)
  }

  /** The processor executes code of the current task's own, outside any kernel call. */
  predicate InUserCode(x: Sys)
    requires WellSized(x)
  {
    AtCode(x.k) && x.call[x.k.current.value] == None
  }

  /** A blocked call returns when the processor is back in its caller.  A mutex is released
      only by a task that holds it; a semaphore by anyone. */
  predicate SysPossible(x: Sys, e: SysEvent)
    requires WellSized(x)
  {
    match e
    case Return => AtCode(x.k) && x.call[x.k.current.value].Some?
    case Kernel(ke) =>
      && Possible(x.k, ke)
      && (ke.CallDelay? || ke.CallAcquire? ==> InUserCode(x))
      && (ke.CallRelease? && x.k.prims[ke.prim].Mutex? ==>
            InUserCode(x) && (x.k.current.value, ke.prim) in x.held)
  }

  /** A step taken by the current task, in its own code or on its way out of a call. */
  predicate ByCurrent(x: Sys, e: SysEvent)
    requires WellSized(x) && SysPossible(x, e)
  {
    e.Return? || e.e.CallDelay? || e.e.CallAcquire? || (e.e.CallRelease? && x.k.prims[e.e.prim].Mutex?)
  }

  predicate SysEnabled(x: Sys, e: SysEvent)
    requires WellSized(x)
  {
    SysPossible(x, e) && (ByCurrent(x, e) ==> CanRun(x.k))
  }

  function Bump(xs: seq<nat>, o: nat): seq<nat>
    requires o < |xs|
  {
    xs[o := xs[o] + 1]
  }

  /** The caller learns that it has acquired `o`. */
  function Learns(x: Sys, t: TaskId, o: PrimId): Sys
    requires WellSized(x) && o < |x.k.prims|
  {
    if x.k.prims[o].Mutex? then x.(held := x.held + {(t, o)})
    else x.(taken := Bump(x.taken, o))
  }

  function SysStep(x: Sys, e: SysEvent): Sys
    requires WellSized(x) && SysPossible(x, e)
  {
    var k := x.k;
    match e
    case Return =>
      var c := k.current.value;
      var o := x.call[c].value;
      var y := if k.tasks[c].result == Success then Learns(x, c, o) else x;
      y.(call := y.call[c := None])
    case Kernel(ke) =>
      match ke
      case OnTick => x.(k := Step(k, ke))
      case OnSwitch => x.(k := Step(k, ke))
      case OnYield => x.(k := Step(k, ke))
      case CallDelay(_) => x.(k := Step(k, ke))
      case CallAcquire(o, timeout) =>
        var out := Acquire(k, o, timeout).1;
        var c := k.current.value;
        var y := if out == Done(Success) then Learns(x, c, o)
                 else if out == Parked then x.(call := x.call[c := Some(o)], chosen := x.chosen[c := false]) else x;
        y.(k := Step(k, ke))
      case CallRelease(o) =>
        var y := if k.prims[o].Mutex? then x.(held := x.held - {(k.current.value, o)})
                 else x.(posts := Bump(x.posts, o),
                         lost := if Saturates(k, o) then Bump(x.lost, o) else x.lost);
        var n := Chosen(k, o);
        y.(k := Step(k, ke), chosen := if n.Some? then x.chosen[n.value := true] else x.chosen)
  }

  predicate Saturates(k: State, o: PrimId)
    requires o < |k.prims|
  {
    k.prims[o].Semaphore? && k.prims[o].waiters == [] && k.prims[o].count >= k.prims[o].max
  }

  predicate SysLegal(x: Sys, evs: seq<SysEvent>)
    decreases |evs|
  {
    && WellSized(x)
    && (evs == [] || (SysEnabled(x, evs[0]) && SysLegal(SysStep(x, evs[0]), evs[1..])))
  }

  function SysExec(x: Sys, evs: seq<SysEvent>): (r: Sys)
    requires SysLegal(x, evs)
    ensures WellSized(r)
    decreases |evs|
  {
    if evs == [] then x else SysExec(SysStep(x, evs[0]), evs[1..])
  }

  // ---------- callers and their waits ----------

  /** A task inside a blocked call is queued where it called, or has its answer: OS_SUCCESS
      exactly if a release has chosen it, and OS_TIMEOUT otherwise. */
  predicate CallOk(call: Option<PrimId>, chosen: bool, t: Tcb) {
    match call
    case None => t.wait == None
    case Some(o) =>
      if t.wait.Some? then t.wait == Some(o) && !chosen
      else t.result == if chosen then Success else Timeout
  }

  /** The wait is over and was won, but the call has not returned yet. */
  predicate Handed(x: Sys, t: TaskId, o: PrimId) {
    && t < |x.call| && t < |x.k.tasks|
    && x.call[t] == Some(o) && x.k.tasks[t].wait == None && x.k.tasks[t].result == Success
  }

  predicate CallsOk(x: Sys)
    requires WellSized(x)
  {
    forall t :: 0 <= t < |x.call| ==> CallOk(x.call[t], x.chosen[t], x.k.tasks[t])
  }

  lemma SysFrame(x: Sys, e: SysEvent)
    requires WellSized(x) && KInv(x.k) && SysEnabled(x, e)
    ensures var y := SysStep(x, e); WellSized(y) && KInv(y.k)
    ensures SysStep(x, e).k == if e.Kernel? then Step(x.k, e.e) else x.k
  {
    hide Step, KInv;
    KInvWF(x.k);
    if e.Kernel? {
      StepInv(x.k, e.e);
      StepFrame(x.k, e.e);
      KInvWF(Step(x.k, e.e));
    }
  }

  lemma CallAfter(x: Sys, e: SysEvent, t: TaskId)
    requires WellSized(x) && KInv(x.k) && CallsOk(x) && SysEnabled(x, e) && t < |x.call|
    ensures WellSized(SysStep(x, e)) && CallOk(SysStep(x, e).call[t], SysStep(x, e).chosen[t], SysStep(x, e).k.tasks[t])
  {
    hide Step, KInv, Acquire, Chosen;
    SysFrame(x, e);
    assert CallOk(x.call[t], x.chosen[t], x.k.tasks[t]);
    if e.Kernel? {
      ViewFrame(x.k, e.e);
      assert View(Step(x.k, e.e).tasks[t]) == ViewAfter(x.k, e.e, t);
      if e.e.CallRelease? {
        ChosenWaits(x.k, e.e.prim);
      }
    } else {
      RunningDoesNotWait(x.k);
    }
  }

  lemma CallsStep(x: Sys, e: SysEvent)
    requires WellSized(x) && KInv(x.k) && CallsOk(x) && SysEnabled(x, e)
    ensures var y := SysStep(x, e); WellSized(y) && KInv(y.k) && CallsOk(y)
  {
    hide SysStep, KInv, CallOk, SysPossible, ByCurrent;
    SysFrame(x, e);
    forall t | 0 <= t < |SysStep(x, e).call|
      ensures CallOk(SysStep(x, e).call[t], SysStep(x, e).chosen[t], SysStep(x, e).k.tasks[t])
    {
      SysCalls(x, e);
      CallAfter(x, e, t);
    }
  }

  lemma SysCalls(x: Sys, e: SysEvent)
    requires WellSized(x) && SysEnabled(x, e)
    ensures |SysStep(x, e).call| == |x.call|
  {
  }

  lemma RunningDoesNotWait(k: State)
    requires KInv(k) && CanRun(k)
    ensures k.tasks[k.current.value].wait == None && k.tasks[k.current.value].sleep == 0
  {
  }

  lemma ChosenWaits(k: State, o: PrimId)
    requires KInv(k) && o < |k.prims|
    ensures Chosen(k, o).Some? ==> k.tasks[Chosen(k, o).value].wait == Some(o)
  {
  }

  // ---------- mutual exclusion ----------

  predicate OwnedBy(k: State, t: TaskId, o: PrimId)
    requires o < |k.prims|
  {
    k.prims[o].Mutex? && k.prims[o].owner == Some(t)
  }

  /** The kernel's owner field agrees with what callers have been told: a holder is
      the owner, an owner is the holder or about to learn that it is. */
  predicate HeldAt(x: Sys, t: TaskId, o: PrimId)
    requires o < |x.k.prims| && t < |x.call|
  {
    && ((t, o) in x.held ==> OwnedBy(x.k, t, o) && x.call[t] != Some(o))
    && (OwnedBy(x.k, t, o) ==> (t, o) in x.held || Handed(x, t, o))
    && (Handed(x, t, o) && x.k.prims[o].Mutex? ==> OwnedBy(x.k, t, o))
  }

  ghost predicate HeldOk(x: Sys)
    requires WellSized(x)
  {
    && (forall t, o :: 0 <= t < |x.call| && 0 <= o < |x.k.prims| ==> HeldAt(x, t, o))
    && (forall t, o :: (t, o) in x.held ==> t < |x.call| && o < |x.k.prims|)
  }

  lemma OwnerFacts(k: State, o: PrimId)
    requires KInv(k) && o < |k.prims|
    ensures k.prims[o].Mutex? ==>
              && (k.prims[o].locked <==> k.prims[o].owner.Some?)
              && (Chosen(k, o).Some? ==> k.prims[o].owner != Chosen(k, o))
  {
  }

  lemma HeldAfterReturn(x: Sys, t: TaskId, o: PrimId)
    requires WellSized(x) && KInv(x.k) && CallsOk(x) && HeldOk(x) && SysEnabled(x, Return)
    requires t < |x.call| && o < |x.k.prims|
    ensures WellSized(SysStep(x, Return)) && HeldAt(SysStep(x, Return), t, o)
  {
    var c := x.k.current.value;
    RunningDoesNotWait(x.k);
    hide KInv;
    assert HeldAt(x, t, o) && HeldAt(x, c, x.call[c].value);
  }

  lemma HeldAfterQuiet(x: Sys, ke: Event, t: TaskId, o: PrimId)
    requires WellSized(x) && KInv(x.k) && CallsOk(x) && HeldOk(x) && SysEnabled(x, Kernel(ke))
    requires t < |x.call| && o < |x.k.prims| && (ke.OnTick? || ke.OnSwitch? || ke.OnYield? || ke.CallDelay?)
    ensures WellSized(SysStep(x, Kernel(ke))) && HeldAt(SysStep(x, Kernel(ke)), t, o)
  {
    hide Step, KInv;
    SysFrame(x, Kernel(ke));
    ViewFrame(x.k, ke);
    PrimFrame(x.k, ke);
    var k' := Step(x.k, ke);
    assert HeldAt(x, t, o) && CallOk(x.call[t], x.chosen[t], x.k.tasks[t]);
    assert View(k'.tasks[t]) == ViewAfter(x.k, ke, t) && k'.prims[o] == PrimAfter(x.k, ke, o);
  }

  lemma HeldAfterAcquire(x: Sys, p: PrimId, timeout: nat, t: TaskId, o: PrimId)
    requires WellSized(x) && KInv(x.k) && CallsOk(x) && HeldOk(x) && SysEnabled(x, Kernel(CallAcquire(p, timeout)))
    requires t < |x.call| && o < |x.k.prims|
    ensures WellSized(SysStep(x, Kernel(CallAcquire(p, timeout))))
    ensures HeldAt(SysStep(x, Kernel(CallAcquire(p, timeout))), t, o)
  {
    hide Step, KInv, Acquire;
    var ke := CallAcquire(p, timeout);
    SysFrame(x, Kernel(ke));
    ViewFrame(x.k, ke);
    PrimFrame(x.k, ke);
    AcquireOutcome(x.k, p, timeout);
    OwnerFacts(x.k, p);
    var k' := Step(x.k, ke);
    assert HeldAt(x, t, o) && CallOk(x.call[t], x.chosen[t], x.k.tasks[t]);
    assert View(k'.tasks[t]) == ViewAfter(x.k, ke, t) && k'.prims[o] == PrimAfter(x.k, ke, o);
  }

  lemma HeldAfterRelease(x: Sys, p: PrimId, t: TaskId, o: PrimId)
    requires WellSized(x) && KInv(x.k) && CallsOk(x) && HeldOk(x) && SysEnabled(x, Kernel(CallRelease(p)))
    requires t < |x.call| && o < |x.k.prims|
    ensures WellSized(SysStep(x, Kernel(CallRelease(p))))
    ensures HeldAt(SysStep(x, Kernel(CallRelease(p))), t, o)
  {
    hide Step, KInv, Chosen;
    var ke := CallRelease(p);
    SysFrame(x, Kernel(ke));
    ViewFrame(x.k, ke);
    PrimFrame(x.k, ke);
    OwnerFacts(x.k, p);
    ChosenWaits(x.k, p);
    var k' := Step(x.k, ke);
    assert HeldAt(x, t, o) && CallOk(x.call[t], x.chosen[t], x.k.tasks[t]);
    if x.k.prims[p].Mutex? {
      assert HeldAt(x, x.k.current.value, p);
    }
    assert View(k'.tasks[t]) == ViewAfter(x.k, ke, t) && k'.prims[o] == PrimAfter(x.k, ke, o);
  }

  lemma HeldInRange(x: Sys, e: SysEvent)
    requires WellSized(x) && KInv(x.k) && HeldOk(x) && SysEnabled(x, e)
    ensures WellSized(SysStep(x, e))
    ensures forall t, o :: (t, o) in SysStep(x, e).held ==> t < |SysStep(x, e).call| && o < |SysStep(x, e).k.prims|
  {
    hide Step, KInv, Acquire, HeldAt;
    SysFrame(x, e);
    SysCalls(x, e);
    if e.Kernel? {
      PrimFrame(x.k, e.e);
    }
  }

  lemma HeldStep(x: Sys, e: SysEvent)
    requires WellSized(x) && KInv(x.k) && CallsOk(x) && HeldOk(x) && SysEnabled(x, e)
    ensures WellSized(SysStep(x, e)) && HeldOk(SysStep(x, e))
  {
    hide SysStep, KInv, HeldAt, SysPossible, ByCurrent, CallsOk;
    HeldInRange(x, e);
    SysFrame(x, e);
    SysSizes(x, e);
    forall t, o | 0 <= t < |SysStep(x, e).call| && 0 <= o < |SysStep(x, e).k.prims|
      ensures HeldAt(SysStep(x, e), t, o)
    {
      match e
      case Return => HeldAfterReturn(x, t, o);
      case Kernel(ke) =>
        match ke
        case CallAcquire(p, timeout) => HeldAfterAcquire(x, p, timeout, t, o);
        case CallRelease(p) => HeldAfterRelease(x, p, t, o);
        case OnTick => HeldAfterQuiet(x, ke, t, o);
        case OnSwitch => HeldAfterQuiet(x, ke, t, o);
        case OnYield => HeldAfterQuiet(x, ke, t, o);
        case CallDelay(_) => HeldAfterQuiet(x, ke, t, o);
    }
  }

  lemma SysSizes(x: Sys, e: SysEvent)
    requires WellSized(x) && KInv(x.k) && SysEnabled(x, e)
    ensures |SysStep(x, e).call| == |x.call| && |SysStep(x, e).k.prims| == |x.k.prims|
  {
    hide Step, KInv;
    if e.Kernel? {
      PrimFrame(x.k, e.e);
    }
  }

  // ---------- semaphore conservation ----------

  /** One for each task that has been handed a token of `o` and not yet returned. */
  function Grants(x: Sys, o: PrimId): (g: seq<nat>)
    ensures |g| == |x.call|
    ensures forall t :: 0 <= t < |g| ==> g[t] == if Handed(x, t, o) then 1 else 0
  {
    seq(|x.call|, (t: nat) => if Handed(x, t, o) then 1 else 0)
  }

  lemma GrantsChange(x: Sys, y: Sys, o: PrimId, i: TaskId)
    requires |x.call| == |y.call| && i < |x.call|
    requires forall t :: 0 <= t < |x.call| && t != i ==> (Handed(x, t, o) <==> Handed(y, t, o))
    ensures Sum(Grants(y, o)) + Grants(x, o)[i] == Sum(Grants(x, o)) + Grants(y, o)[i]
  {
    SumUpdate(Grants(x, o), i, Grants(y, o)[i]);
    assert Grants(x, o)[i := Grants(y, o)[i]] == Grants(y, o);
  }

  /** Every token is accounted for: those there at the start and those posted, less
      those lost to saturation, are in the count, were taken, or are in flight to a
      task that was handed one. */
  predicate ConservedAt(x: Sys, initial: seq<nat>, o: PrimId)
    requires WellSized(x) && o < |initial| == |x.k.prims|
  {
    x.k.prims[o].Semaphore? ==>
      initial[o] + x.posts[o] == x.lost[o] + x.k.prims[o].count + x.taken[o] + Sum(Grants(x, o))
  }

  predicate Conserved(x: Sys, initial: seq<nat>)
    requires WellSized(x) && |initial| == |x.k.prims|
  {
    forall o :: 0 <= o < |x.k.prims| ==> ConservedAt(x, initial, o)
  }

  lemma ConservedQuiet(x: Sys, ke: Event, initial: seq<nat>, o: PrimId)
    requires WellSized(x) && KInv(x.k) && CallsOk(x) && SysEnabled(x, Kernel(ke))
    requires o < |initial| == |x.k.prims| && ConservedAt(x, initial, o)
    requires ke.OnTick? || ke.OnSwitch? || ke.OnYield? || ke.CallDelay?
    ensures var y := SysStep(x, Kernel(ke));
            WellSized(y) && |y.k.prims| == |x.k.prims| && ConservedAt(y, initial, o)
  {
    hide Step, KInv;
    var y := SysStep(x, Kernel(ke));
    SysFrame(x, Kernel(ke));
    ViewFrame(x.k, ke);
    PrimFrame(x.k, ke);
    forall t | 0 <= t < |x.call|
      ensures Handed(x, t, o) <==> Handed(y, t, o)
    {
      assert CallOk(x.call[t], x.chosen[t], x.k.tasks[t]);
      assert View(y.k.tasks[t]) == ViewAfter(x.k, ke, t);
    }
    assert Grants(y, o) == Grants(x, o);
    assert y.k.prims[o] == PrimAfter(x.k, ke, o);
  }

  lemma ConservedAcquire(x: Sys, p: PrimId, timeout: nat, initial: seq<nat>, o: PrimId)
    requires WellSized(x) && KInv(x.k) && CallsOk(x) && SysEnabled(x, Kernel(CallAcquire(p, timeout)))
    requires o < |initial| == |x.k.prims| && ConservedAt(x, initial, o)
    ensures var y := SysStep(x, Kernel(CallAcquire(p, timeout)));
            WellSized(y) && |y.k.prims| == |x.k.prims| && ConservedAt(y, initial, o)
  {
    hide Step, KInv, Acquire;
    var ke := CallAcquire(p, timeout);
    var y := SysStep(x, Kernel(ke));
    SysFrame(x, Kernel(ke));
    ViewFrame(x.k, ke);
    PrimFrame(x.k, ke);
    AcquireOutcome(x.k, p, timeout);
    forall t | 0 <= t < |x.call|
      ensures Handed(x, t, o) <==> Handed(y, t, o)
    {
      assert CallOk(x.call[t], x.chosen[t], x.k.tasks[t]);
      assert View(y.k.tasks[t]) == ViewAfter(x.k, ke, t);
    }
    assert Grants(y, o) == Grants(x, o);
    assert y.k.prims[o] == PrimAfter(x.k, ke, o);
  }

  lemma ConservedRelease(x: Sys, p: PrimId, initial: seq<nat>, o: PrimId)
    requires WellSized(x) && KInv(x.k) && CallsOk(x) && SysEnabled(x, Kernel(CallRelease(p)))
    requires o < |initial| == |x.k.prims| && ConservedAt(x, initial, o)
    ensures var y := SysStep(x, Kernel(CallRelease(p)));
            WellSized(y) && |y.k.prims| == |x.k.prims| && ConservedAt(y, initial, o)
  {
    hide Step, KInv, Chosen;
    var ke := CallRelease(p);
    var y := SysStep(x, Kernel(ke));
    SysFrame(x, Kernel(ke));
    ViewFrame(x.k, ke);
    PrimFrame(x.k, ke);
    ChosenWaits(x.k, p);
    var n := Chosen(x.k, p);
    forall t | 0 <= t < |x.call|
      ensures Handed(y, t, o) <==> Handed(x, t, o) || (p == o && n == Some(t))
      ensures n == Some(t) ==> !Handed(x, t, o)
    {
      assert CallOk(x.call[t], x.chosen[t], x.k.tasks[t]);
      assert View(y.k.tasks[t]) == ViewAfter(x.k, ke, t);
    }
    assert y.k.prims[o] == PrimAfter(x.k, ke, o);
    if p == o && n.Some? {
      GrantsChange(x, y, o, n.value);
    } else {
      assert Grants(y, o) == Grants(x, o);
    }
  }

  lemma ConservedReturn(x: Sys, initial: seq<nat>, o: PrimId)
    requires WellSized(x) && KInv(x.k) && CallsOk(x) && SysEnabled(x, Return)
    requires o < |initial| == |x.k.prims| && ConservedAt(x, initial, o)
    ensures var y := SysStep(x, Return);
            WellSized(y) && |y.k.prims| == |x.k.prims| && ConservedAt(y, initial, o)
  {
    RunningDoesNotWait(x.k);
    hide KInv;
    GrantsChange(x, SysStep(x, Return), o, x.k.current.value);
  }

  lemma ConservedStep(x: Sys, e: SysEvent, initial: seq<nat>)
    requires WellSized(x) && KInv(x.k) && CallsOk(x) && SysEnabled(x, e)
    requires |initial| == |x.k.prims| && Conserved(x, initial)
    ensures var y := SysStep(x, e);
            WellSized(y) && |y.k.prims| == |x.k.prims| && Conserved(y, initial)
  {
    hide SysStep, KInv, SysPossible, ByCurrent, CallsOk, ConservedAt;
    SysFrame(x, e);
    SysSizes(x, e);
    forall o | 0 <= o < |x.k.prims|
      ensures ConservedAt(SysStep(x, e), initial, o)
    {
      match e
      case Return => ConservedReturn(x, initial, o);
      case Kernel(ke) =>
        match ke
        case CallAcquire(p, timeout) => ConservedAcquire(x, p, timeout, initial, o);
        case CallRelease(p) => ConservedRelease(x, p, initial, o);
        case OnTick => ConservedQuiet(x, ke, initial, o);
        case OnSwitch => ConservedQuiet(x, ke, initial, o);
        case OnYield => ConservedQuiet(x, ke, initial, o);
        case CallDelay(_) => ConservedQuiet(x, ke, initial, o);
    }
  }

  // ---------- whole runs ----------

  ghost predicate ProtocolInv(x: Sys, initial: seq<nat>) {
    && WellSized(x) && KInv(x.k) && CallsOk(x) && HeldOk(x)
    && |initial| == |x.k.prims| && Conserved(x, initial)
  }

  /** The system at launch: no call in progress, nothing held, nothing counted. */
  predicate Started(x: Sys, initial: seq<nat>) {
    && WellSized(x) && KInv(x.k)
    && (forall t :: 0 <= t < |x.call| ==> x.call[t] == None && x.k.tasks[t].wait == None)
    && x.held == {}
    && |initial| == |x.k.prims|
    && (forall o :: 0 <= o < |x.k.prims| ==>
          && x.posts[o] == x.lost[o] == x.taken[o] == 0
          && match x.k.prims[o]
             case Mutex(locked, _, _) => !locked
             case Semaphore(count, _, _) => count == initial[o])
  }

  lemma StartedInv(x: Sys, initial: seq<nat>)
    requires Started(x, initial)
    ensures ProtocolInv(x, initial)
  {
    forall o | 0 <= o < |x.k.prims|
      ensures ConservedAt(x, initial, o)
    {
      SumZero(Grants(x, o));
    }
    forall t, o | 0 <= t < |x.call| && 0 <= o < |x.k.prims|
      ensures HeldAt(x, t, o)
    {
      assert PrimInv(x.k.prims[o]);
    }
  }

  /** A launch of a booted kernel is such a start. */
  lemma StartedAtLaunch(s: State, initial: seq<nat>)
    requires Booted(s) && s.tasks != [] && |initial| == |s.prims|
    requires forall o :: 0 <= o < |s.prims| && s.prims[o].Semaphore? ==> initial[o] == s.prims[o].count
    ensures var zeros := seq(|s.prims|, _ => 0);
            Started(Sys(Launch(s), seq(|s.tasks|, _ => None), seq(|s.tasks|, _ => false), {}, zeros, zeros, zeros), initial)
  {
  }

  lemma {:induction false} ProtocolRun(x: Sys, evs: seq<SysEvent>, initial: seq<nat>)
    requires ProtocolInv(x, initial) && SysLegal(x, evs)
    ensures ProtocolInv(SysExec(x, evs), initial)
    decreases |evs|
  {
    hide SysStep, KInv, CallsOk, HeldOk, Conserved, SysPossible, ByCurrent;
    if evs == [] {
    } else {
      CallsStep(x, evs[0]);
      HeldStep(x, evs[0]);
      ConservedStep(x, evs[0], initial);
      ProtocolRun(SysStep(x, evs[0]), evs[1..], initial);
    }
  }

  /** Mutual exclusion with no barging, over all runs: at most one task is between a
      successful acquire of a mutex and its release; it is the owner; and from the
      moment a waiter has been handed the mutex nobody else holds it. */
  lemma MutualExclusion(x: Sys, evs: seq<SysEvent>, initial: seq<nat>, t: TaskId, u: TaskId, o: PrimId)
    requires Started(x, initial) && SysLegal(x, evs)
    requires var r := SysExec(x, evs);
             && ((t, o) in r.held || (o < |r.k.prims| && r.k.prims[o].Mutex? && Handed(r, t, o)))
             && ((u, o) in r.held || (o < |r.k.prims| && r.k.prims[o].Mutex? && Handed(r, u, o)))
    ensures t == u
    ensures var r := SysExec(x, evs);
            o < |r.k.prims| && r.k.prims[o].Mutex? && r.k.prims[o].locked && r.k.prims[o].owner == Some(t)
            && t !in r.k.prims[o].waiters
  {
    StartedInv(x, initial);
    ProtocolRun(x, evs, initial);
    var r := SysExec(x, evs);
    assert HeldAt(r, t, o) && HeldAt(r, u, o) && PrimInv(r.k.prims[o]);
  }

  /** An owned mutex has exactly one task that holds it or has just been handed it. */
  lemma OwnerIsHolder(x: Sys, evs: seq<SysEvent>, initial: seq<nat>, o: PrimId)
    requires Started(x, initial) && SysLegal(x, evs) && o < |SysExec(x, evs).k.prims|
    requires SysExec(x, evs).k.prims[o].Mutex?
    ensures var r := SysExec(x, evs); var m := r.k.prims[o];
            && (m.locked <==> m.owner.Some?)
            && (m.waiters != [] ==> m.locked)
            && (m.owner.Some? ==> (m.owner.value, o) in r.held || Handed(r, m.owner.value, o))
  {
    StartedInv(x, initial);
    ProtocolRun(x, evs, initial);
    var r := SysExec(x, evs);
    assert PrimInv(r.k.prims[o]) && PrimOk(r.k.prims[o], |r.k.tasks|, r.k.launched);
    if r.k.prims[o].owner.Some? {
      assert HeldAt(r, r.k.prims[o].owner.value, o);
    }
  }

  /** What a blocked acquire reports when it resumes is true at that moment: OS_SUCCESS
      exactly if a release has chosen it since it blocked, and for a mutex exactly if it
      is the owner; OS_TIMEOUT exactly if none has. */
  lemma ReturnIsHonest(x: Sys, evs: seq<SysEvent>, initial: seq<nat>)
    requires Started(x, initial) && SysLegal(x, evs) && SysEnabled(SysExec(x, evs), Return)
    ensures var r := SysExec(x, evs); var c := r.k.current.value; var o := r.call[c].value;
            && r.k.tasks[c].result != Fail
            && (r.k.prims[o].Mutex? ==>
                  (r.k.tasks[c].result == Success <==> r.k.prims[o].owner == Some(c)))
            && (r.k.tasks[c].result == Success <==> r.chosen[c])
            && (r.k.tasks[c].result == Timeout <==> !r.chosen[c])
  {
    StartedInv(x, initial);
    ProtocolRun(x, evs, initial);
    var r := SysExec(x, evs);
    var c := r.k.current.value;
    RunningDoesNotWait(r.k);
    assert CallOk(r.call[c], r.chosen[c], r.k.tasks[c]) && HeldAt(r, c, r.call[c].value);
  }

  /** Semaphore conservation over all runs; the count stays within its maximum, and
      a free token means nobody is waiting, so no wakeup is lost. */
  lemma SemaphoreConservation(x: Sys, evs: seq<SysEvent>, initial: seq<nat>, o: PrimId)
    requires Started(x, initial) && SysLegal(x, evs) && o < |SysExec(x, evs).k.prims|
    requires SysExec(x, evs).k.prims[o].Semaphore?
    ensures var r := SysExec(x, evs); var sem := r.k.prims[o];
            && o < |initial|
            && initial[o] + r.posts[o] == r.lost[o] + sem.count + r.taken[o] + Sum(Grants(r, o))
            && sem.count <= sem.max
            && (sem.count > 0 ==> sem.waiters == [])
  {
    StartedInv(x, initial);
    ProtocolRun(x, evs, initial);
    assert ConservedAt(SysExec(x, evs), initial, o) && PrimInv(SysExec(x, evs).k.prims[o]);
  }
}
