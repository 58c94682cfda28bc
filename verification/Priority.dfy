/** Priority inheritance over whole runs: donations do not leak and inversion is
    bounded. */
module Priority {
  import opened Sequences
  import opened KernelModel
  import opened KernelInvariant
  import opened TickRefinement
  import opened KernelRuns
  import opened Scheduling

  predicate Owns(s: State, t: TaskId, o: PrimId) {
    o < |s.prims| && s.prims[o].Mutex? && s.prims[o].owner == Some(t)
  }

  ghost predicate OwnsSome(s: State, t: TaskId) {
    exists o :: Owns(s, t, o)
  }

  // ---------- donations never leak ----------

  ghost predicate SomeBase(s: State, p: nat) {
    exists u :: 0 <= u < |s.tasks| && s.tasks[u].base == p
  }

  predicate AtLeastBase(s: State) {
    forall t :: 0 <= t < |s.tasks| ==> s.tasks[t].priority >= s.tasks[t].base
  }

  ghost predicate ExcessOwned(s: State) {
    forall t :: 0 <= t < |s.tasks| && s.tasks[t].priority != s.tasks[t].base ==> OwnsSome(s, t)
  }

  ghost predicate FromBases(s: State) {
    forall t :: 0 <= t < |s.tasks| ==> SomeBase(s, s.tasks[t].priority)
  }

  ghost predicate Donations(s: State) {
    AtLeastBase(s) && ExcessOwned(s) && FromBases(s)
  }

  /** If every priority in `r` is the task's own, its base or the one lent by `donor`,
      priorities still come from base priorities. */
  lemma FromBasesKept(s: State, r: State, donor: TaskId)
    requires SameShape(s, r) && FromBases(s) && donor < |s.tasks|
    requires forall t :: 0 <= t < |s.tasks| ==>
               r.tasks[t].priority in {s.tasks[t].base, s.tasks[t].priority, s.tasks[donor].priority}
    ensures FromBases(r)
  {
  }

  lemma ExcessKept(s: State, r: State, o: PrimId)
    requires SameShape(s, r) && ExcessOwned(s)
    requires forall t :: 0 <= t < |s.tasks| && r.tasks[t].priority != s.tasks[t].priority ==>
               r.tasks[t].priority == s.tasks[t].base || Owns(r, t, o)
    requires forall t, p :: 0 <= t < |s.tasks| && Owns(s, t, p) ==>
               Owns(r, t, p) || r.tasks[t].priority == s.tasks[t].base
    ensures ExcessOwned(r)
  {
  }

  /** A step that moves no priority and no ownership keeps the donation invariant. */
  lemma DonationFrame(s: State, r: State)
    requires Donations(s) && SameShape(s, r)
    requires forall t :: 0 <= t < |s.tasks| ==> r.tasks[t].priority == s.tasks[t].priority
    requires forall o, t :: Owns(s, t, o) ==> Owns(r, t, o)
    ensures Donations(r)
  {
  }

  /** What an acquire does to priorities and ownership: a success only adds an
      owner, and parking lends the owner the caller's priority. */
  lemma AcquirePriorities(s: State, o: PrimId, timeout: nat)
    requires KInv(s) && CanRun(s) && o < |s.prims|
    ensures var r := Acquire(s, o, timeout).0; var c := s.current.value;
            && SameShape(s, r)
            && (forall t :: 0 <= t < |s.tasks| && r.tasks[t].priority != s.tasks[t].priority ==>
                  && Owns(s, t, o) && r.tasks[t].priority == s.tasks[c].priority
                  && r.tasks[t].priority > s.tasks[t].priority)
            && (forall t, p :: Owns(s, t, p) ==> Owns(r, t, p))
  {
    AcquireShape(s, o, timeout);
    assert PrimInv(s.prims[o]);
  }

  lemma DonationAcquire(s: State, o: PrimId, timeout: nat)
    requires KInv(s) && Donations(s) && CanRun(s) && o < |s.prims|
    ensures Donations(Acquire(s, o, timeout).0)
  {
    hide Acquire, SomeBase, OwnsSome;
    AcquirePriorities(s, o, timeout);
    FromBasesKept(s, Acquire(s, o, timeout).0, s.current.value);
    ExcessKept(s, Acquire(s, o, timeout).0, o);
  }

  /** A release returns the old owner to its base priority and takes the mutex from
      nobody else. */
  lemma ReleasePriorities(s: State, o: PrimId)
    requires KInv(s) && o < |s.prims|
    ensures var r := Release(s, o);
            && |r.tasks| == |s.tasks| && |r.prims| == |s.prims|
            && (forall t :: 0 <= t < |s.tasks| ==>
                  r.tasks[t].priority == if Owns(s, t, o) then s.tasks[t].base else s.tasks[t].priority)
            && (forall p :: 0 <= p < |s.prims| && p != o ==> r.prims[p] == s.prims[p])
            && (s.prims[o].Mutex? ==>
                  && r.prims[o].Mutex? && r.prims[o].owner == Chosen(s, o)
                  && (r.prims[o].locked <==> Chosen(s, o).Some?)
                  && r.prims[o].waiters ==
                       if Chosen(s, o).Some? then Without(s.prims[o].waiters, Chosen(s, o).value) else [])
  {
    assert PrimInv(s.prims[o]);
    match Chosen(s, o)
    case Some(n) => if s.prims[o].Mutex? { HandoffShape(s, o, n); } else { PostShape(s, o, n); }
    case None =>
  }

  /** A step changes the priority only of a task that owns a mutex. */
  lemma PrioritiesKept(s: State, e: Event)
    requires KInv(s) && Enabled(s, e)
    ensures |Step(s, e).tasks| == |s.tasks|
    ensures forall t :: 0 <= t < |s.tasks| && Step(s, e).tasks[t].priority != s.tasks[t].priority ==> OwnsSome(s, t)
  {
    hide Release, Acquire, OwnsSome;
    match e
    case OnTick => TickIsSimultaneous(s);
    case OnSwitch => ScheduleFrame(s.(pending := false));
    case OnYield =>
    case CallDelay(ms) =>
    case CallAcquire(o, timeout) => AcquirePriorities(s, o, timeout); OwnsOne(s, o);
    case CallRelease(o) => ReleasePriorities(s, o); OwnsOne(s, o);
  }

  lemma OwnsOne(s: State, o: PrimId)
    ensures forall t :: Owns(s, t, o) ==> OwnsSome(s, t)
  {
  }

  lemma DonationRelease(s: State, o: PrimId)
    requires KInv(s) && Donations(s) && o < |s.prims|
    ensures Donations(Release(s, o))
  {
    hide Release, SomeBase, OwnsSome;
    ReleaseFrame(s, o);
    ReleasePriorities(s, o);
    FromBasesKept(s, Release(s, o), s.current.value);
    ExcessKept(s, Release(s, o), o);
  }

  lemma DonationStep(s: State, e: Event)
    requires KInv(s) && Donations(s) && Enabled(s, e)
    ensures Donations(Step(s, e))
  {
    hide Release, Acquire, Donations;
    StepFrame(s, e);
    match e
    case OnTick => TickIsSimultaneous(s); DonationFrame(s, Step(s, e));
    case OnSwitch => ScheduleFrame(s.(pending := false)); DonationFrame(s, Step(s, e));
    case OnYield => DonationFrame(s, Step(s, e));
    case CallDelay(ms) => DonationFrame(s, Step(s, e));
    case CallAcquire(o, timeout) => DonationAcquire(s, o, timeout);
    case CallRelease(o) => DonationRelease(s, o);
  }

  /** With any number of mutexes and any nesting: a task that owns no mutex is at its
      base priority, no task is ever below it, and every effective priority is some
      task's base priority. */
  lemma {:induction false} DonationsNeverLeak(s: State, evs: seq<Event>)
    requires KInv(s) && Donations(s) && Legal(s, evs)
    ensures Donations(Exec(s, evs))
    decreases |evs|
  {
    if evs == [] {
    } else {
      StepInv(s, evs[0]);
      DonationStep(s, evs[0]);
      DonationsNeverLeak(Step(s, evs[0]), evs[1..]);
    }
  }

  lemma DonationAtLaunch(s: State)
    requires Booted(s) && s.tasks != []
    ensures KInv(Launch(s)) && Donations(Launch(s))
  {
    LaunchInv(s);
    var r := Launch(s);
    forall t | 0 <= t < |r.tasks|
      ensures SomeBase(r, r.tasks[t].priority) && r.tasks[t].priority == r.tasks[t].base
    {
      assert r.tasks[t].base == r.tasks[t].priority;
    }
  }

  // ---------- bounded priority inversion ----------

  /** No task is asked to hold one mutex while it holds or waits for another. */
  predicate OneAtATime(s: State, e: Event)
    requires WF(s) && Enabled(s, e)
  {
    e.CallAcquire? && s.prims[e.prim].Mutex? ==>
      forall p :: 0 <= p < |s.prims| && p != e.prim ==> !Owns(s, s.current.value, p)
  }

  predicate LegalOneAtATime(s: State, evs: seq<Event>)
    requires Legal(s, evs)
    decreases |evs|
  {
    evs == [] || (OneAtATime(s, evs[0]) && LegalOneAtATime(Step(s, evs[0]), evs[1..]))
  }

  predicate WaitsForMutex(s: State, t: TaskId, o: PrimId) {
    o < |s.prims| && s.prims[o].Mutex? && t in s.prims[o].waiters
  }

  /** Nobody owns two mutexes, nor waits for one while owning another. */
  ghost predicate NotNested(s: State) {
    && (forall t, o, p :: Owns(s, t, o) && Owns(s, t, p) ==> o == p)
    && (forall t, o, p :: WaitsForMutex(s, t, o) ==> !Owns(s, t, p))
  }

  /** Every owner runs at no less than the priority of each task it holds up. */
  ghost predicate Inherits(s: State)
    requires WF(s)
  {
    forall t: TaskId, w: TaskId, o :: Owns(s, t, o) && WaitsForMutex(s, w, o) && t < |s.tasks| && w < |s.tasks| ==>
      s.tasks[t].priority >= s.tasks[w].priority
  }

  /** Position `k` holds the highest priority in the queue, and no earlier position does. */
  predicate BestAt(tasks: seq<Tcb>, q: seq<TaskId>, k: nat) {
    && (forall i :: 0 <= i < |q| ==> q[i] < |tasks|)
    && k < |q|
    && (forall i :: 0 <= i < |q| ==> tasks[q[i]].priority <= tasks[q[k]].priority)
    && (forall i :: 0 <= i < k ==> tasks[q[i]].priority < tasks[q[k]].priority)
  }

  lemma {:induction false} PickIsBest(tasks: seq<Tcb>, q: seq<TaskId>, n: nat) returns (k: nat)
    requires forall x :: x in q ==> x < |tasks|
    requires 0 < n <= |q|
    ensures k < n && PickUpTo(tasks, q, n) == Some(q[k])
    ensures forall i :: 0 <= i < n ==> q[i] in q && tasks[q[i]].priority <= tasks[q[k]].priority
    ensures forall i :: 0 <= i < k ==> tasks[q[i]].priority < tasks[q[k]].priority
  {
    assert q[n - 1] in q;
    if n == 1 {
      assert PickUpTo(tasks, q, 0) == None;
      k := 0;
    } else {
      k := PickIsBest(tasks, q, n - 1);
      if tasks[q[n - 1]].priority > tasks[q[k]].priority {
        k := n - 1;
      }
    }
  }

  lemma WaitersUnaffected(s: State, o: PrimId)
    requires KInv(s) && o < |s.prims|
    ensures forall x :: x in s.prims[o].waiters ==> x < |s.tasks|
    ensures s.prims[o].Mutex? ==> forall x :: x in s.prims[o].waiters ==> DropDonation(s, o).tasks[x] == s.tasks[x]
  {
  }

  /** The waiter a release chooses has the highest priority in the queue and is the
      earliest of those that have it. */
  lemma ChosenIsBest(s: State, o: PrimId) returns (k: nat)
    requires KInv(s) && o < |s.prims| && s.prims[o].waiters != []
    ensures BestAt(s.tasks, s.prims[o].waiters, k) && Chosen(s, o) == Some(s.prims[o].waiters[k])
  {
    var q := s.prims[o].waiters;
    var tasks := if s.prims[o].Mutex? then DropDonation(s, o).tasks else s.tasks;
    WaitersUnaffected(s, o);
    k := PickIsBest(tasks, q, |q|);
  }

  /** Fewer waiters, and no change of owners or priorities, keep the claim. */
  lemma InheritsFrame(s: State, r: State)
    requires WF(s) && WF(r) && SameShape(s, r) && NotNested(s) && Inherits(s)
    requires forall t :: 0 <= t < |s.tasks| ==> r.tasks[t].priority == s.tasks[t].priority
    requires forall t, o :: Owns(r, t, o) ==> Owns(s, t, o)
    requires forall t, o :: WaitsForMutex(r, t, o) ==> WaitsForMutex(s, t, o)
    ensures NotNested(r) && Inherits(r)
  {
  }

  lemma InheritsTick(s: State)
    requires KInv(s) && NotNested(s) && Inherits(s)
    ensures NotNested(Tick(s)) && WF(Tick(s)) && Inherits(Tick(s))
  {
    TickInv(s);
    StepFrame(s, OnTick);
    TickIsSimultaneous(s);
    hide NotNested, Inherits;
    InheritsFrame(s, Tick(s));
  }

  lemma InheritsTake(s: State, o: PrimId, timeout: nat)
    requires KInv(s) && NotNested(s) && Inherits(s) && CanRun(s) && o < |s.prims|
    requires OneAtATime(s, CallAcquire(o, timeout)) && Acquire(s, o, timeout).1 == Done(Success)
    ensures var r := Acquire(s, o, timeout).0; WF(r) && NotNested(r) && Inherits(r)
  {
    hide Acquire;
    AcquireInv(s, o, timeout);
    AcquireShape(s, o, timeout);
    AcquireOutcome(s, o, timeout);
    var c := s.current.value;
    var r := Acquire(s, o, timeout).0;
    assert PrimInv(s.prims[o]) && TaskInv(s.tasks[c]);
    assert forall t, p :: WaitsForMutex(r, t, p) <==> WaitsForMutex(s, t, p);
    assert forall t, p :: Owns(r, t, p) <==> Owns(s, t, p) || (t == c && p == o && s.prims[o].Mutex?);
    assert forall p :: !WaitsForMutex(s, c, p);
    assert s.prims[o].Mutex? ==> forall t :: !WaitsForMutex(s, t, o);
  }

  lemma InheritsPark(s: State, o: PrimId, timeout: nat)
    requires KInv(s) && NotNested(s) && Inherits(s) && CanRun(s) && o < |s.prims| && s.prims[o].Mutex?
    requires OneAtATime(s, CallAcquire(o, timeout)) && Acquire(s, o, timeout).1 == Parked
    ensures var r := Acquire(s, o, timeout).0; WF(r) && NotNested(r) && Inherits(r)
  {
    hide Acquire;
    AcquireInv(s, o, timeout);
    AcquireShape(s, o, timeout);
    AcquireOutcome(s, o, timeout);
    var c := s.current.value;
    var r := Acquire(s, o, timeout).0;
    var w := s.prims[o].owner.value;
    assert PrimInv(s.prims[o]) && TaskInv(s.tasks[c]);
    assert forall t, p :: Owns(r, t, p) <==> Owns(s, t, p);
    assert forall t, p :: WaitsForMutex(r, t, p) <==> WaitsForMutex(s, t, p) || (t == c && p == o);
    assert Owns(s, w, o) && !Owns(s, c, o);
    assert forall p :: !Owns(s, c, p);
    assert forall p :: !WaitsForMutex(s, w, p);
  }

  lemma InheritsAcquire(s: State, o: PrimId, timeout: nat)
    requires KInv(s) && NotNested(s) && Inherits(s) && CanRun(s) && o < |s.prims|
    requires OneAtATime(s, CallAcquire(o, timeout))
    ensures var r := Acquire(s, o, timeout).0; WF(r) && NotNested(r) && Inherits(r)
  {
    hide Acquire, NotNested, Inherits;
    var (r, out) := Acquire(s, o, timeout);
    AcquireShape(s, o, timeout);
    AcquireInv(s, o, timeout);
    match out
    case Parked =>
      if s.prims[o].Mutex? {
        InheritsPark(s, o, timeout);
      } else {
        InheritsFrame(s, r);
      }
    case Done(code) =>
      match code
      case Success => InheritsTake(s, o, timeout);
      case Timeout =>
      case Fail =>
  }

  /** Ownership and waiting after a release that hands the mutex on, as set changes. */
  lemma HandoffSets(s: State, o: PrimId, n: TaskId)
    requires KInv(s) && o < |s.prims| && s.prims[o].Mutex? && Chosen(s, o) == Some(n)
    ensures var r := Release(s, o);
            && (forall t, p :: Owns(r, t, p) <==> if p == o then t == n else Owns(s, t, p))
            && (forall t, p :: WaitsForMutex(r, t, p) <==> WaitsForMutex(s, t, p) && !(p == o && t == n))
  {
    hide Release, Chosen;
    ReleasePriorities(s, o);
    WithoutMembers(s.prims[o].waiters, n);
  }

  lemma FreeSets(s: State, o: PrimId)
    requires KInv(s) && o < |s.prims| && (s.prims[o].Mutex? ==> s.prims[o].waiters == [])
    ensures var r := Release(s, o);
            && (forall t, p :: Owns(r, t, p) <==> p != o && Owns(s, t, p))
            && (forall t, p :: WaitsForMutex(r, t, p) <==> WaitsForMutex(s, t, p))
  {
  }

  /** The new owner outranks everyone it leaves waiting. */
  lemma BestOutranks(s: State, o: PrimId, n: TaskId)
    requires KInv(s) && o < |s.prims| && Chosen(s, o) == Some(n)
    ensures forall x :: x in s.prims[o].waiters ==>
              x < |s.tasks| && n < |s.tasks| && s.tasks[x].priority <= s.tasks[n].priority
  {
    hide KInv, Chosen;
    var k := ChosenIsBest(s, o);
  }

  lemma InheritsRelease(s: State, o: PrimId)
    requires KInv(s) && NotNested(s) && Inherits(s) && o < |s.prims|
    ensures var r := Release(s, o); WF(r) && NotNested(r) && Inherits(r)
  {
    hide Release, Chosen, KInv;
    ReleaseWF(s, o);
    ReleasePriorities(s, o);
    match Chosen(s, o)
    case Some(n) =>
      if s.prims[o].Mutex? {
        HandoffSets(s, o, n);
        BestOutranks(s, o, n);
        assert WaitsForMutex(s, n, o);
        WaitsOnce(s, n, o);
      } else {
        FreeSets(s, o);
      }
    case None => FreeSets(s, o);
  }

  lemma WaitsOnce(s: State, t: TaskId, o: PrimId)
    requires KInv(s) && WaitsForMutex(s, t, o)
    ensures forall p :: WaitsForMutex(s, t, p) ==> p == o
  {
    assert PrimOk(s.prims[o], |s.tasks|, s.launched);
    assert s.tasks[t].wait == Some(o);
  }

  lemma ReleaseWF(s: State, o: PrimId)
    requires KInv(s) && o < |s.prims|
    ensures WF(s) && WF(Release(s, o))
    ensures Chosen(s, o).Some? ==> Chosen(s, o).value in s.prims[o].waiters
    ensures Chosen(s, o) == None ==> s.prims[o].waiters == []
  {
    hide Release;
    ReleaseInv(s, o);
  }

  lemma InheritsStep(s: State, e: Event)
    requires KInv(s) && NotNested(s) && Inherits(s) && Enabled(s, e) && OneAtATime(s, e)
    ensures var r := Step(s, e); WF(r) && NotNested(r) && Inherits(r)
  {
    hide Release, Acquire, NotNested, Inherits;
    StepInv(s, e);
    StepFrame(s, e);
    match e
    case OnTick => InheritsTick(s);
    case OnSwitch => ScheduleFrame(s.(pending := false)); InheritsFrame(s, Step(s, e));
    case OnYield => InheritsFrame(s, Step(s, e));
    case CallDelay(ms) => InheritsFrame(s, Step(s, e));
    case CallAcquire(o, timeout) => InheritsAcquire(s, o, timeout);
    case CallRelease(o) => InheritsRelease(s, o);
  }

  // ---------- the exact condition, under any nesting ----------

  /** The step leaves no owner below a task it holds up.  A release: nobody who waits for
      another mutex of the same owner outranks that owner's base priority.  A caller that
      parks: if the owner it lends to waits for a mutex itself, the caller does not outrank
      that mutex's owner.  Anything else is harmless. */
  ghost predicate KeepsRank(s: State, e: Event)
    requires WF(s) && Enabled(s, e)
  {
    match e
    case CallRelease(o) =>
      forall t: TaskId, w: TaskId, p :: Owns(s, t, o) && p != o && Owns(s, t, p) && WaitsForMutex(s, w, p)
                                        && t < |s.tasks| && w < |s.tasks| ==>
        s.tasks[w].priority <= s.tasks[t].base
    case CallAcquire(o, timeout) =>
      Acquire(s, o, timeout).1 == Parked ==>
        forall t: TaskId, v: TaskId, p :: Owns(s, t, o) && WaitsForMutex(s, t, p) && Owns(s, v, p) && v < |s.tasks| ==>
          s.tasks[s.current.value].priority <= s.tasks[v].priority
    case _ => true
  }

  /** An owner is never in its own queue. */
  lemma OwnerDoesNotWait(s: State, t: TaskId, o: PrimId)
    requires KInv(s) && Owns(s, t, o)
    ensures !WaitsForMutex(s, t, o) && t < |s.tasks|
  {
    assert PrimInv(s.prims[o]) && PrimOk(s.prims[o], |s.tasks|, s.launched);
  }

  lemma ReleaseRank(s: State, o: PrimId)
    requires KInv(s) && Inherits(s) && AtLeastBase(s) && o < |s.prims|
    ensures WF(Release(s, o)) && (Inherits(Release(s, o)) <==> KeepsRank(s, CallRelease(o)))
  {
    hide Release, Chosen, KInv;
    ReleaseWF(s, o);
    ReleasePriorities(s, o);
    forall t: TaskId, p: PrimId | Owns(s, t, p)
      ensures !WaitsForMutex(s, t, p) && t < |s.tasks|
    {
      OwnerDoesNotWait(s, t, p);
    }
    match Chosen(s, o)
    case Some(n) =>
      if s.prims[o].Mutex? {
        HandoffSets(s, o, n);
        BestOutranks(s, o, n);
        assert WaitsForMutex(s, n, o) && !Owns(s, n, o);
      } else {
        FreeSets(s, o);
      }
    case None => FreeSets(s, o);
  }

  /** What parking on a mutex does to priorities, ownership and waiting. */
  lemma ParkSets(s: State, o: PrimId, timeout: nat)
    requires KInv(s) && CanRun(s) && o < |s.prims| && Acquire(s, o, timeout).1 == Parked && s.prims[o].Mutex?
    ensures var r := Acquire(s, o, timeout).0; var c := s.current.value; var p := s.tasks[c].priority;
            && WF(r) && |r.tasks| == |s.tasks| && c < |s.tasks|
            && (forall t, x :: Owns(r, t, x) <==> Owns(s, t, x))
            && (forall t, x :: WaitsForMutex(r, t, x) <==> WaitsForMutex(s, t, x) || (t == c && x == o))
            && (forall t :: 0 <= t < |s.tasks| ==>
                  r.tasks[t].priority ==
                  if Owns(s, t, o) && p > s.tasks[t].priority then p else s.tasks[t].priority)
  {
    hide Acquire;
    AcquireInv(s, o, timeout);
    AcquireShape(s, o, timeout);
    AcquireOutcome(s, o, timeout);
    assert PrimInv(s.prims[o]);
  }

  lemma ParkRank(s: State, o: PrimId, timeout: nat)
    requires KInv(s) && Inherits(s) && CanRun(s) && o < |s.prims| && s.prims[o].Mutex?
    requires Acquire(s, o, timeout).1 == Parked
    ensures var r := Acquire(s, o, timeout).0;
            WF(r) && (Inherits(r) <==> KeepsRank(s, CallAcquire(o, timeout)))
  {
    hide Acquire, KInv;
    ParkSets(s, o, timeout);
    forall t: TaskId, p: PrimId | Owns(s, t, p)
      ensures !WaitsForMutex(s, t, p) && t < |s.tasks|
    {
      OwnerDoesNotWait(s, t, p);
    }
  }

  /** Fewer waiters, and no change of owners or priorities. */
  lemma RankFrame(s: State, r: State)
    requires WF(s) && WF(r) && SameShape(s, r) && Inherits(s)
    requires forall t :: 0 <= t < |s.tasks| ==> r.tasks[t].priority == s.tasks[t].priority
    requires forall t, o :: Owns(r, t, o) ==> Owns(s, t, o)
    requires forall t, o :: WaitsForMutex(r, t, o) ==> WaitsForMutex(s, t, o)
    ensures Inherits(r)
  {
  }

  /** Taking a free mutex holds nobody up. */
  lemma TakeRank(s: State, o: PrimId, timeout: nat)
    requires KInv(s) && Inherits(s) && CanRun(s) && o < |s.prims| && Acquire(s, o, timeout).1 == Done(Success)
    ensures var r := Acquire(s, o, timeout).0; WF(r) && Inherits(r)
  {
    hide Acquire;
    AcquireInv(s, o, timeout);
    AcquireShape(s, o, timeout);
    AcquireOutcome(s, o, timeout);
    var r := Acquire(s, o, timeout).0;
    assert PrimInv(s.prims[o]);
    assert forall t, p :: WaitsForMutex(r, t, p) <==> WaitsForMutex(s, t, p);
    assert forall t, p :: Owns(r, t, p) && WaitsForMutex(s, t, p) ==> Owns(s, t, p) || p == o;
  }

  lemma AcquireRank(s: State, o: PrimId, timeout: nat)
    requires KInv(s) && Inherits(s) && CanRun(s) && o < |s.prims|
    ensures var r := Acquire(s, o, timeout).0;
            WF(r) && (Inherits(r) <==> KeepsRank(s, CallAcquire(o, timeout)))
  {
    hide Acquire, Inherits;
    var (r, out) := Acquire(s, o, timeout);
    AcquireShape(s, o, timeout);
    AcquireInv(s, o, timeout);
    match out
    case Parked =>
      if s.prims[o].Mutex? {
        ParkRank(s, o, timeout);
      } else {
        RankFrame(s, r);
      }
    case Done(code) =>
      match code
      case Success => TakeRank(s, o, timeout);
      case Timeout =>
      case Fail =>
  }

  lemma TickRank(s: State)
    requires KInv(s) && Inherits(s)
    ensures WF(Tick(s)) && Inherits(Tick(s))
  {
    TickInv(s);
    StepFrame(s, OnTick);
    TickIsSimultaneous(s);
    hide Inherits;
    RankFrame(s, Tick(s));
  }

  /** A step keeps every owner at or above its waiters exactly under that condition. */
  lemma RankStep(s: State, e: Event)
    requires KInv(s) && Inherits(s) && AtLeastBase(s) && Enabled(s, e)
    ensures WF(Step(s, e)) && (Inherits(Step(s, e)) <==> KeepsRank(s, e))
  {
    hide Release, Acquire, Inherits;
    StepInv(s, e);
    StepFrame(s, e);
    match e
    case OnTick => TickRank(s);
    case OnSwitch => ScheduleFrame(s.(pending := false)); RankFrame(s, Step(s, e));
    case OnYield => RankFrame(s, Step(s, e));
    case CallDelay(ms) => RankFrame(s, Step(s, e));
    case CallAcquire(o, timeout) => AcquireRank(s, o, timeout);
    case CallRelease(o) => ReleaseRank(s, o);
  }

  lemma AtLeastBaseStep(s: State, e: Event)
    requires KInv(s) && AtLeastBase(s) && Enabled(s, e)
    ensures AtLeastBase(Step(s, e))
  {
    hide Release, Acquire;
    StepFrame(s, e);
    match e
    case OnTick => TickIsSimultaneous(s);
    case OnSwitch => ScheduleFrame(s.(pending := false));
    case OnYield =>
    case CallDelay(ms) =>
    case CallAcquire(o, timeout) => AcquirePriorities(s, o, timeout);
    case CallRelease(o) => ReleasePriorities(s, o);
  }

  /** No owner ranks below a waiter anywhere in the run. */
  ghost predicate AlwaysInherits(s: State, evs: seq<Event>)
    requires Legal(s, evs)
    decreases |evs|
  {
    Inherits(s) && (evs == [] || AlwaysInherits(Step(s, evs[0]), evs[1..]))
  }

  ghost predicate AlwaysKeepsRank(s: State, evs: seq<Event>)
    requires Legal(s, evs)
    decreases |evs|
  {
    evs == [] || (KeepsRank(s, evs[0]) && AlwaysKeepsRank(Step(s, evs[0]), evs[1..]))
  }

  /** Bounded priority inversion, under any nesting: no owner ever ranks below a waiter
      exactly if every step meets the condition. */
  lemma {:induction false} InversionBounded(s: State, evs: seq<Event>)
    requires KInv(s) && AtLeastBase(s) && Inherits(s) && Legal(s, evs)
    ensures AlwaysInherits(s, evs) <==> AlwaysKeepsRank(s, evs)
    decreases |evs|
  {
    hide KInv, Step, Inherits, KeepsRank, AtLeastBase;
    if evs == [] {
    } else {
      StepInv(s, evs[0]);
      AtLeastBaseStep(s, evs[0]);
      RankStep(s, evs[0]);
      if KeepsRank(s, evs[0]) {
        InversionBounded(Step(s, evs[0]), evs[1..]);
      }
    }
  }

  /** Tasks that take one mutex at a time always meet it: through acquires, timeouts and
      handoffs no owner ranks below a waiter. */
  lemma {:induction false} OneAtATimeRun(s: State, evs: seq<Event>)
    requires KInv(s) && NotNested(s) && Inherits(s) && Legal(s, evs) && LegalOneAtATime(s, evs)
    ensures var r := Exec(s, evs); KInv(r) && NotNested(r) && Inherits(r)
    ensures AlwaysInherits(s, evs)
    decreases |evs|
  {
    hide KInv, Step, NotNested, Inherits, OneAtATime;
    if evs == [] {
    } else {
      StepInv(s, evs[0]);
      InheritsStep(s, evs[0]);
      OneAtATimeRun(Step(s, evs[0]), evs[1..]);
    }
  }

  lemma InheritsAtLaunch(s: State)
    requires Booted(s) && s.tasks != []
    ensures KInv(Launch(s)) && NotNested(Launch(s)) && Inherits(Launch(s))
  {
    LaunchInv(s);
    assert Launch(s).prims == s.prims;
    hide Launch, KInv;
    assert forall o :: 0 <= o < |s.prims| ==> PrimInv(s.prims[o]) && s.prims[o].waiters == [];
    assert forall t, o :: !Owns(Launch(s), t, o);
  }

  /** So while the owner can run, a pass never picks a task ranked below a waiter. */
  lemma OwnerShieldsWaiters(s: State, t: TaskId, w: TaskId, o: PrimId)
    requires KInv(s) && Inherits(s) && Owns(s, t, o) && WaitsForMutex(s, w, o)
    requires t < |s.tasks| && Runnable(s.tasks[t]) && w < |s.tasks|
    ensures var p := Switch(s).current.value;
            p < |s.tasks| && s.tasks[p].priority >= s.tasks[w].priority
  {
    SchedulePicks(s.(pending := false));
  }
}
