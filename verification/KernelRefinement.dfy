/** The C operations, called in any order the enabling conditions allow, go through
    exactly the states of the state machine.  So every theorem about its runs holds of
    the code's data structures: TCB array, wait-queue arrays and counts. */
module KernelRefinement {
  import opened KernelModel
  import opened KernelInvariant
  import opened KernelRuns
  import opened Kernel

  method Perform(k: Kernel, e: Event)
    requires k.Valid() && KInv(k.model) && Enabled(k.model, e)
    modifies k.Repr()
    ensures k.Valid() && k.model == Step(old(k.model), e) && KInv(k.model)
  {
    hide KInv, Kernel.Valid, Tick, Switch, Delay, MutexAcquire, SemAcquire, MutexRelease, SemRelease;
    StepInv(k.model, e);
    KInvWF(k.model);
    k.Sizes();
    match e {
      case OnTick => k.Tick();
      case OnSwitch => k.Switch();
      case OnYield => k.Yield();
      case CallDelay(ms) => k.Delay(ms);
      case CallAcquire(o, timeout) =>
        if k.IsMutex(o) {
          var out := k.MutexAcquire(o, timeout);
        } else {
          var out := k.SemAcquire(o, timeout);
        }
      case CallRelease(o) =>
        if k.IsMutex(o) {
          k.MutexRelease(o);
        } else {
          k.SemRelease(o);
        }
    }
  }

  /** Any run of the code is a run of the machine. */
  method PerformAll(k: Kernel, evs: seq<Event>)
    requires k.Valid() && KInv(k.model) && Legal(k.model, evs)
    modifies k.Repr()
    ensures k.Valid() && k.model == Exec(old(k.model), evs) && KInv(k.model)
    decreases |evs|
  {
    hide KInv, Kernel.Valid, Step, Enabled;
    if evs != [] {
      Perform(k, evs[0]);
      PerformAll(k, evs[1..]);
    }
  }
}
