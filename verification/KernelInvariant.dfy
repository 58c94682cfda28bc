/** The invariant that ties task control blocks to wait-queue slots, and the
    proof that every kernel operation other than the tick keeps it. */
module KernelInvariant {
  import opened Sequences
  import opened KernelModel

  /** A task's back-pointer names a queue exactly when the task sits in it. */
  predicate Linked(s: State) {
    && WF(s)
    && (forall t, o :: 0 <= t < |s.tasks| && 0 <= o < |s.prims| ==>
          (s.tasks[t].wait == Some(o) <==> t in s.prims[o].waiters))
    && (forall o :: 0 <= o < |s.prims| ==> NoDup(s.prims[o].waiters))
  }

  predicate TaskInv(t: Tcb) {
    && (t.wait.Some? ==> t.state == Blocked)
    && (t.sleep > 0 ==> t.state == Blocked)
    && (t.state == Blocked ==> t.wait.Some? || t.sleep > 0)
  }

  predicate PrimInv(p: Prim) {
    match p
    case Mutex(locked, owner, waiters) =>
      && (locked <==> owner.Some?)
      && (waiters != [] ==> locked)
      && (owner.Some? ==> owner.value !in waiters)
    case Semaphore(count, max, waiters) =>
      && count <= max
      && (count > 0 ==> waiters == [])
  }

  predicate OneRunning(s: State) {
    forall t :: 0 <= t < |s.tasks| && s.tasks[t].state == Running ==> s.current == Some(t)
  }

  predicate KInv(s: State) {
    && s.launched
    && Linked(s)
    && (forall t :: 0 <= t < |s.tasks| ==> TaskInv(s.tasks[t]))
    && (forall o :: 0 <= o < |s.prims| ==> PrimInv(s.prims[o]))
    && OneRunning(s)
  }

  lemma KInvWF(s: State)
    requires KInv(s)
    ensures WF(s) && s.launched && s.current.Some?
  {
  }

  /** The processor executes the current task's code: no context switch is waiting to be
      taken.  The kernel does not look at the task's state here. */
  predicate AtCode(s: State) {
    s.launched && !s.pending
  }

  /** And the current task is RUNNING, as it should be. */
  predicate CanRun(s: State)
    requires WF(s)
  {
    AtCode(s) && s.tasks[s.current.value].state == Running
  }

  // ---------- start-up establishes the invariant ----------

  /** Before launch: tasks created and not yet run, primitives initialised and free. */
  predicate Booted(s: State) {
    && WF(s) && !s.launched
    && (s.tasks != [] ==> s.current == Some(0))
    && (forall t :: 0 <= t < |s.tasks| ==> s.tasks[t] == FreshTcb(s.tasks[t].base))
    && (forall o :: 0 <= o < |s.prims| ==> s.prims[o].waiters == [] && PrimInv(s.prims[o])
                                           && (s.prims[o].Mutex? ==> !s.prims[o].locked))
  }

  lemma TaskCreateBooted(s: State, priority: nat)
    requires Booted(s) && |s.tasks| < s.maxTasks
    requires s.tasks == [] ==> s.current == None
    ensures Booted(TaskCreate(s, priority))
  {
  }

  lemma LaunchInv(s: State)
    requires Booted(s) && s.tasks != []
    ensures KInv(Launch(s))
    ensures forall t :: 0 <= t < |s.tasks| ==>
              Launch(s).tasks[t] == s.tasks[t].(state := Launch(s).tasks[t].state)
  {
  }

  // ---------- scheduler ----------

  /** A pass touches nothing but task states and the current-task pointer, and
      leaves at most the chosen task RUNNING. */
  lemma ScheduleFrame(s: State)
    requires WF(s) && OneRunning(s)
    ensures var r := Schedule(s);
            && r == s.(tasks := r.tasks, current := r.current)
            && |r.tasks| == |s.tasks| && WF(r) && OneRunning(r)
            && forall t :: 0 <= t < |s.tasks| ==>
                 && r.tasks[t] == s.tasks[t].(state := r.tasks[t].state)
                 && (Runnable(r.tasks[t]) <==> Runnable(s.tasks[t]))
                 && (!Runnable(s.tasks[t]) ==> r.tasks[t] == s.tasks[t])
  {
  }

  lemma SwitchInv(s: State)
    requires KInv(s)
    ensures KInv(Switch(s))
  {
    ScheduleFrame(s.(pending := false));
    var r := Switch(s);
    forall t | 0 <= t < |r.tasks|
      ensures TaskInv(r.tasks[t])
    {
      assert TaskInv(s.tasks[t]);
    }
  }

  // ---------- delay ----------

  lemma YieldInv(s: State)
    requires KInv(s)
    ensures KInv(Yield(s))
  {
  }

  lemma DelayInv(s: State, ms: nat)
    requires KInv(s) && CanRun(s)
    ensures KInv(Delay(s, ms))
  {
  }

  // ---------- acquire ----------

  lemma DonateInv(s: State, owner: TaskId, priority: nat)
    requires KInv(s) && owner < |s.tasks|
    ensures KInv(Donate(s, owner, priority))
  {
  }

  lemma ParkLinked(s: State, o: PrimId, timeout: nat)
    requires Linked(s) && o < |s.prims| && s.current.Some?
    requires s.tasks[s.current.value].wait == None
    ensures Linked(Park(s, o, timeout))
  {
  }

  lemma ParkInv(s: State, o: PrimId, timeout: nat)
    requires KInv(s) && CanRun(s) && o < |s.prims|
    requires s.prims[o].Mutex? ==> s.prims[o].locked && s.prims[o].owner != s.current
    requires s.prims[o].Semaphore? ==> s.prims[o].count == 0
    ensures KInv(Park(s, o, timeout))
  {
  }

  /** Wait queues never fill: the waiters are distinct tasks, none of them the
      caller and, for a mutex, none of them the owner. */
  lemma QueueHasRoom(s: State, o: PrimId)
    requires KInv(s) && CanRun(s) && o < |s.prims|
    requires s.prims[o].Mutex? ==> s.prims[o].owner.Some? && s.prims[o].owner != s.current
    ensures |s.prims[o].waiters| < Capacity(s, o)
  {
    var c := s.current.value;
    assert TaskInv(s.tasks[c]);
    assert c !in s.prims[o].waiters;
    assert PrimOk(s.prims[o], |s.tasks|, s.launched);
    if s.prims[o].Mutex? {
      assert PrimInv(s.prims[o]);
      var absent := {c, s.prims[o].owner.value};
      assert |absent| == 2;
      Pigeonhole(s.prims[o].waiters, |s.tasks|, absent);
    } else {
      Pigeonhole(s.prims[o].waiters, |s.tasks|, {c});
    }
  }

  lemma AcquireInv(s: State, o: PrimId, timeout: nat)
    requires KInv(s) && CanRun(s) && o < |s.prims|
    ensures KInv(Acquire(s, o, timeout).0)
  {
    var m := s.prims[o];
    assert PrimInv(m) && PrimOk(m, |s.tasks|, s.launched);
    var c := s.current.value;
    assert TaskInv(s.tasks[c]);
    if m.Mutex? {
      if !m.locked {
        var r := Acquire(s, o, timeout).0;
        assert r.prims[o].waiters == [] && PrimInv(r.prims[o]);
      } else if m.owner != s.current && timeout != 0 {
        DonateInv(s, m.owner.value, s.tasks[c].priority);
        ParkInv(Donate(s, m.owner.value, s.tasks[c].priority), o, timeout);
      }
    } else if m.count > 0 {
      var r := Acquire(s, o, timeout).0;
      assert PrimInv(r.prims[o]);
    } else if timeout != 0 {
      ParkInv(s, o, timeout);
    }
  }

  /** The only acquire that can fail is one of a mutex the caller already owns;
      a polling call never parks; and WAIT_FOREVER never reports a timeout. */
  lemma AcquireOutcome(s: State, o: PrimId, timeout: nat)
    requires KInv(s) && CanRun(s) && o < |s.prims|
    ensures var out := Acquire(s, o, timeout).1;
            && (out == Done(Fail) <==> s.prims[o].Mutex? && s.prims[o].owner == s.current)
            && (out == Done(Timeout) ==> timeout == 0)
            && (out == Parked ==> timeout != 0)
            && (out == Done(Success) <==>
                  if s.prims[o].Mutex? then !s.prims[o].locked else s.prims[o].count > 0)
  {
    assert PrimInv(s.prims[o]);
    if s.prims[o].Mutex? && s.prims[o].locked && s.prims[o].owner != s.current {
      QueueHasRoom(s, o);
    }
    if s.prims[o].Semaphore? {
      QueueHasRoom(s, o);
    }
  }

  /** A primitive after an acquire that succeeds at once. */
  function Taken(p: Prim, c: Option<TaskId>): Prim {
    match p
    case Mutex(_, _, q) => Mutex(true, c, q)
    case Semaphore(n, max, q) => Semaphore(if n > 0 then n - 1 else 0, max, q)
  }

  function ParkedTcb(t: Tcb, o: PrimId, timeout: nat): Tcb {
    t.(wait := Some(o), result := Success, state := Blocked,
       sleep := if timeout == WAIT_FOREVER then 0 else timeout)
  }

  /** The tasks after a blocking acquire of `o` has lent the owner its priority. */
  function Donated(s: State, o: PrimId): (r: seq<Tcb>)
    requires WF(s) && s.current.Some? && o < |s.prims|
    ensures |r| == |s.tasks|
    ensures forall t :: 0 <= t < |r| ==> r[t] == s.tasks[t].(priority := r[t].priority)
  {
    if s.prims[o].Mutex? && s.prims[o].owner.Some?
    then Donate(s, s.prims[o].owner.value, s.tasks[s.current.value].priority).tasks
    else s.tasks
  }

  /** The three ways the first part of an acquire ends. */
  lemma AcquireShape(s: State, o: PrimId, timeout: nat)
    requires KInv(s) && CanRun(s) && o < |s.prims|
    ensures var (r, out) := Acquire(s, o, timeout); var c := s.current.value;
            && (out == Done(Success) ==> r == SetPrim(s, o, Taken(s.prims[o], s.current)))
            && (out.Done? && out.code != Success ==> r == s)
            && (out == Parked ==>
                  r == s.(tasks := Donated(s, o)[c := ParkedTcb(s.tasks[c], o, timeout)],
                          prims := s.prims[o := SetWaiters(s.prims[o], s.prims[o].waiters + [c])],
                          pending := true))
  {
    AcquireOutcome(s, o, timeout);
    assert PrimInv(s.prims[o]);
  }

  // ---------- release ----------

  lemma DropDonationInv(s: State, o: PrimId)
    requires KInv(s) && o < |s.prims| && s.prims[o].Mutex?
    ensures KInv(DropDonation(s, o))
  {
  }

  lemma WakeLinked(s: State, o: PrimId, t: TaskId)
    requires Linked(s) && o < |s.prims| && t < |s.tasks| && t in s.prims[o].waiters
    ensures Linked(Wake(s, t))
    ensures s.tasks[t].wait == Some(o)
    ensures Wake(s, t) ==
            s.(tasks := s.tasks[t := s.tasks[t].(state := Ready, sleep := 0, wait := None, result := Success)],
               prims := s.prims[o := SetWaiters(s.prims[o], Without(s.prims[o].waiters, t))])
  {
    assert s.tasks[t].wait == Some(o);
    WithoutMembers(s.prims[o].waiters, t);
    var r := Wake(s, t);
    forall x, p | 0 <= x < |r.tasks| && 0 <= p < |r.prims|
      ensures r.tasks[x].wait == Some(p) <==> x in r.prims[p].waiters
    {
      assert s.tasks[x].wait == Some(p) <==> x in s.prims[p].waiters;
    }
    assert PrimOk(s.prims[o], |s.tasks|, s.launched);
  }

  /** Waking a waiter keeps everything except, for a mutex, the owner clause,
      which the handoff settles. */
  lemma WakeInv(s: State, o: PrimId, t: TaskId)
    requires s.launched && Linked(s) && OneRunning(s)
    requires forall x :: 0 <= x < |s.tasks| ==> TaskInv(s.tasks[x])
    requires forall p :: 0 <= p < |s.prims| && p != o ==> PrimInv(s.prims[p])
    requires o < |s.prims| && t < |s.tasks| && t in s.prims[o].waiters
    requires s.prims[o].Mutex? ==> s.prims[o].locked && s.prims[o].owner == Some(t)
    requires s.prims[o].Semaphore? ==> PrimInv(s.prims[o])
    ensures KInv(Wake(s, t))
  {
    WakeLinked(s, o, t);
    WithoutMembers(s.prims[o].waiters, t);
    var r := Wake(s, t);
    assert PrimInv(r.prims[o]);
  }

  /** The waiter a release hands the resource to. */
  function Chosen(s: State, o: PrimId): (c: Option<TaskId>)
    requires WF(s) && o < |s.prims|
    ensures c.Some? <==> s.prims[o].waiters != []
    ensures c.Some? ==> c.value in s.prims[o].waiters && c.value < |s.tasks|
  {
    assert PrimOk(s.prims[o], |s.tasks|, s.launched);
    Pick(if s.prims[o].Mutex? then DropDonation(s, o).tasks else s.tasks, s.prims[o].waiters)
  }

  function Woken(t: Tcb): Tcb {
    t.(state := Ready, sleep := 0, wait := None, result := Success)
  }

  lemma HandoffShape(s: State, o: PrimId, n: TaskId)
    requires Linked(s) && o < |s.prims| && s.prims[o].Mutex? && Chosen(s, o) == Some(n)
    ensures Release(s, o) ==
            s.(tasks := DropDonation(s, o).tasks[n := Woken(DropDonation(s, o).tasks[n])],
               prims := s.prims[o := s.prims[o].(owner := Some(n), waiters := Without(s.prims[o].waiters, n))],
               pending := true)
  {
  }

  lemma PostShape(s: State, o: PrimId, n: TaskId)
    requires Linked(s) && o < |s.prims| && s.prims[o].Semaphore? && Chosen(s, o) == Some(n)
    ensures Release(s, o) ==
            s.(tasks := s.tasks[n := Woken(s.tasks[n])],
               prims := s.prims[o := SetWaiters(s.prims[o], Without(s.prims[o].waiters, n))],
               pending := true)
  {
  }

  lemma HandoffInv(s: State, o: PrimId, n: TaskId)
    requires KInv(s) && o < |s.prims| && s.prims[o].Mutex? && Chosen(s, o) == Some(n)
    ensures KInv(Release(s, o))
  {
    HandoffShape(s, o, n);
    DropDonationInv(s, o);
    var d := DropDonation(s, o);
    var h := SetPrim(d, o, d.prims[o].(owner := Some(n)));
    assert PrimInv(d.prims[o]);
    assert forall p :: 0 <= p < |h.prims| ==> h.prims[p].waiters == d.prims[p].waiters;
    assert Linked(h);
    WakeInv(h, o, n);
    WakeLinked(h, o, n);
  }

  lemma ReleaseInv(s: State, o: PrimId)
    requires KInv(s) && o < |s.prims|
    ensures KInv(Release(s, o))
  {
    assert PrimInv(s.prims[o]);
    match Chosen(s, o)
    case Some(n) =>
      if s.prims[o].Mutex? {
        HandoffInv(s, o, n);
      } else {
        WakeInv(s, o, n);
      }
    case None =>
      if s.prims[o].Mutex? {
        DropDonationInv(s, o);
      }
      assert PrimInv(Release(s, o).prims[o]);
  }
}
