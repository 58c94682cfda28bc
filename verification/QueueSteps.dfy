/** Each step of the queue keeps the invariant, clause by clause. */
module QueueSteps {
  import opened Sequences
  import opened KernelModel
  import opened KernelInvariant
  import opened TickRefinement
  import opened KernelRuns
  import opened QueueProtocol
  import opened QueueInvariant

  // ---------- tasks ----------

  predicate SameShares(q: Queue, r: Queue, t: TaskId)
    requires WellFormed(q) && WellFormed(r) && t < |q.pc| == |r.pc|
  {
    && InFlight(r.pc[t], r.k.tasks[t]) == InFlight(q.pc[t], q.k.tasks[t])
    && Unposted(r.pc[t], r.k.tasks[t]) == Unposted(q.pc[t], q.k.tasks[t])
  }

  lemma EnvPc(q: Queue, e: Event)
    requires WellFormed(q) && QEnabled(q, Env(e))
    ensures var r := QStep(q, Env(e)); r == q.(k := r.k)
  {
  }

  /** A kernel step that has nothing to do with this queue: a task inside a queue
      operation notices at most the tick, and no other task starts to wait for one of
      the queue's primitives. */
  lemma EnvView(q: Queue, e: Event, t: TaskId)
    requires WellFormed(q) && KInv(q.k) && TasksOk(q) && QEnabled(q, Env(e)) && t < |q.pc|
    ensures var r := QStep(q, Env(e));
            && t < |r.k.tasks|
            && (q.pc[t] != Out ==> View(r.k.tasks[t]) in {View(q.k.tasks[t]), View(Ticked(q.k.tasks[t]))})
            && (q.pc[t] == Out && r.k.tasks[t].wait.Some? ==> !Ours(q, r.k.tasks[t].wait.value))
  {
    hide QStep, KInv, Acquire, Chosen;
    KernelSide(q, Env(e));
    assert View(QStep(q, Env(e)).k.tasks[t]) == ViewAfter(q.k, e, t);
    assert TaskAt(q, t);
    match e
    case CallRelease(o) => RunnerAndChosen(q.k, o);
    case OnTick =>
    case OnSwitch =>
    case OnYield =>
    case CallDelay(_) =>
    case CallAcquire(o, _) =>
  }

  /** Nor does it touch the lock's owner or the counts of the two semaphores. */
  lemma EnvPrims(q: Queue, e: Event)
    requires WellFormed(q) && KInv(q.k) && QEnabled(q, Env(e))
    ensures var r := QStep(q, Env(e));
            && WellFormed(r) && r.k.prims[q.lock].owner == q.k.prims[q.lock].owner
            && (forall x :: x in {q.empty, q.filled} ==>
                  r.k.prims[x].count == q.k.prims[x].count && r.k.prims[x].max == q.k.prims[x].max)
  {
    hide QStep, KInv, Acquire, Chosen;
    KernelSide(q, Env(e));
    assert QStep(q, Env(e)).k.prims[q.lock] == PrimAfter(q.k, e, q.lock);
    assert QStep(q, Env(e)).k.prims[q.empty] == PrimAfter(q.k, e, q.empty);
    assert QStep(q, Env(e)).k.prims[q.filled] == PrimAfter(q.k, e, q.filled);
  }

  lemma TaskAfterEnv(q: Queue, e: Event, t: TaskId)
    requires WellFormed(q) && KInv(q.k) && TasksOk(q) && QEnabled(q, Env(e)) && t < |q.pc|
    ensures WellFormed(QStep(q, Env(e))) && TaskAt(QStep(q, Env(e)), t)
    ensures SameShares(q, QStep(q, Env(e)), t)
  {
    hide QStep, KInv, QPossible;
    EnvPc(q, e);
    EnvPrims(q, e);
    EnvView(q, e, t);
    assert TaskAt(q, t);
  }

  lemma OwnPc(q: Queue, ev: QEvent)
    requires WellFormed(q) && QEnabled(q, ev) && !ev.Env?
    ensures QStep(q, ev).pc == q.pc[q.k.current.value := PcAfter(q, ev)]
  {
  }

  lemma TaskAfterCall(q: Queue, ev: QEvent, t: TaskId)
    requires WellFormed(q) && KInv(q.k) && TasksOk(q) && QEnabled(q, ev) && t < |q.pc|
    requires ev.SendCall? || ev.RecvCall?
    ensures WellFormed(QStep(q, ev)) && TaskAt(QStep(q, ev), t)
  {
    hide QStep, KInv, Acquire, Chosen;
    KernelSide(q, ev);
    OwnPc(q, ev);
    assert TaskAt(q, t) && TaskAt(q, q.k.current.value);
    RunnerAndChosen(q.k, q.lock);
    if ev.SendCall? {
      AcquireOutcome(q.k, q.empty, ev.timeout);
    } else {
      AcquireOutcome(q.k, q.filled, ev.timeout);
    }
  }

  /** The kernel call inside `Go` is none, an acquire of the lock, or a release. */
  lemma TaskAfterLocal(q: Queue, t: TaskId)
    requires WellFormed(q) && KInv(q.k) && TasksOk(q) && QEnabled(q, Go) && t < |q.pc|
    requires KEvent(q, Go) == None
    ensures WellFormed(QStep(q, Go)) && TaskAt(QStep(q, Go), t)
  {
    hide QStep, KInv;
    KernelSide(q, Go);
    OwnPc(q, Go);
    RunnerAndChosen(q.k, q.lock);
    assert TaskAt(q, t) && TaskAt(q, q.k.current.value);
  }

  lemma TaskAfterLock(q: Queue, t: TaskId)
    requires WellFormed(q) && KInv(q.k) && TasksOk(q) && QEnabled(q, Go) && t < |q.pc|
    requires KEvent(q, Go) == Some(CallAcquire(q.lock, WAIT_FOREVER))
    ensures WellFormed(QStep(q, Go)) && TaskAt(QStep(q, Go), t)
  {
    hide QStep, KInv, Acquire, Chosen;
    KernelSide(q, Go);
    OwnPc(q, Go);
    RunnerAndChosen(q.k, q.lock);
    AcquireOutcome(q.k, q.lock, WAIT_FOREVER);
    assert TaskAt(q, t) && TaskAt(q, q.k.current.value);
  }

  lemma TaskAfterRelease(q: Queue, o: PrimId, t: TaskId)
    requires WellFormed(q) && KInv(q.k) && TasksOk(q) && QEnabled(q, Go) && t < |q.pc|
    requires KEvent(q, Go) == Some(CallRelease(o)) && Ours(q, o)
    ensures WellFormed(QStep(q, Go)) && TaskAt(QStep(q, Go), t)
  {
    hide QStep, KInv, Chosen;
    KernelSide(q, Go);
    OwnPc(q, Go);
    RunnerAndChosen(q.k, o);
    assert TaskAt(q, t) && TaskAt(q, q.k.current.value);
  }

  lemma TasksStep(q: Queue, ev: QEvent)
    requires WellFormed(q) && KInv(q.k) && TasksOk(q) && QEnabled(q, ev)
    ensures var r := QStep(q, ev); WellFormed(r) && KInv(r.k) && TasksOk(r)
  {
    hide QStep, KInv, TaskAt;
    KernelSide(q, ev);
    forall t | 0 <= t < |QStep(q, ev).pc|
      ensures TaskAt(QStep(q, ev), t)
    {
      match ev
      case Env(e) => TaskAfterEnv(q, e, t);
      case SendCall(_, _) => TaskAfterCall(q, ev, t);
      case RecvCall(_) => TaskAfterCall(q, ev, t);
      case Go =>
        match KEvent(q, Go)
        case None => TaskAfterLocal(q, t);
        case Some(ke) =>
          if ke.CallAcquire? { TaskAfterLock(q, t); } else { TaskAfterRelease(q, ke.prim, t); }
    }
  }

  // ---------- accounting ----------

  lemma NobodyMoves(q: Queue, r: Queue)
    requires WellFormed(q) && WellFormed(r) && |q.pc| == |r.pc|
    requires forall t :: 0 <= t < |q.pc| ==> SameShares(q, r, t)
    ensures InFlights(r) == InFlights(q) && Unposteds(r) == Unposteds(q)
  {
    forall t | 0 <= t < |q.pc|
      ensures InFlights(r)[t] == InFlights(q)[t] && Unposteds(r)[t] == Unposteds(q)[t]
    {
      assert SameShares(q, r, t);
    }
  }

  lemma OneMoves(q: Queue, r: Queue, c: TaskId)
    requires WellFormed(q) && WellFormed(r) && c < |q.pc| == |r.pc|
    requires forall t :: 0 <= t < |q.pc| && t != c ==> SameShares(q, r, t)
    ensures Sum(InFlights(r)) + InFlights(q)[c] == Sum(InFlights(q)) + InFlights(r)[c]
    ensures Sum(Unposteds(r)) + Unposteds(q)[c] == Sum(Unposteds(q)) + Unposteds(r)[c]
  {
    forall t | 0 <= t < |q.pc| && t != c
      ensures InFlights(q)[t] == InFlights(r)[t] && Unposteds(q)[t] == Unposteds(r)[t]
    {
      assert SameShares(q, r, t);
    }
    SumOne(InFlights(q), InFlights(r), c);
    SumOne(Unposteds(q), Unposteds(r), c);
  }

  lemma TwoMove(q: Queue, r: Queue, c: TaskId, n: TaskId)
    requires WellFormed(q) && WellFormed(r) && c < |q.pc| == |r.pc| && n < |q.pc| && c != n
    requires forall t :: 0 <= t < |q.pc| && t != c && t != n ==> SameShares(q, r, t)
    ensures Sum(InFlights(r)) + InFlights(q)[c] + InFlights(q)[n] == Sum(InFlights(q)) + InFlights(r)[c] + InFlights(r)[n]
    ensures Sum(Unposteds(r)) + Unposteds(q)[c] + Unposteds(q)[n] == Sum(Unposteds(q)) + Unposteds(r)[c] + Unposteds(r)[n]
  {
    forall t | 0 <= t < |q.pc| && t != c && t != n
      ensures InFlights(q)[t] == InFlights(r)[t] && Unposteds(q)[t] == Unposteds(r)[t]
    {
      assert SameShares(q, r, t);
    }
    SumTwo(InFlights(q), InFlights(r), c, n);
    SumTwo(Unposteds(q), Unposteds(r), c, n);
  }

  /** At least one token is in flight whenever some task carries one. */
  lemma CarriesToken(q: Queue, c: TaskId)
    requires WellFormed(q) && Accounted(q) && c < |q.pc|
    ensures q.k.prims[q.empty].count + q.k.prims[q.filled].count + InFlights(q)[c] <= |q.buf|
    ensures Unposteds(q)[c] <= |q.contents|
    ensures |q.contents| + InFlights(q)[c] <= |q.buf| + Unposteds(q)[c]
  {
    SumAtLeast(InFlights(q), c);
    SumAtLeast(Unposteds(q), c);
    SumBelow(Unposteds(q), InFlights(q), c);
  }

  lemma AccountedEnv(q: Queue, e: Event)
    requires WellFormed(q) && KInv(q.k) && TasksOk(q) && Accounted(q) && QEnabled(q, Env(e))
    ensures WellFormed(QStep(q, Env(e))) && Accounted(QStep(q, Env(e)))
  {
    hide QStep, KInv, QPossible, SameShares, TaskAt;
    EnvPc(q, e);
    EnvPrims(q, e);
    forall t | 0 <= t < |q.pc|
      ensures SameShares(q, QStep(q, Env(e)), t)
    {
      TaskAfterEnv(q, e, t);
    }
    NobodyMoves(q, QStep(q, Env(e)));
  }

  lemma OwnData(q: Queue, ev: QEvent)
    requires WellFormed(q) && QEnabled(q, ev) && !ev.Env?
    ensures var r := QStep(q, ev); r == DataAfter(q, ev).(k := r.k, pc := r.pc)
  {
  }

  /** What a call of send or receive does to its caller's shares and to the two counts. */
  lemma CallShares(q: Queue, ev: QEvent, t': Tcb)
    requires WellFormed(q) && KInv(q.k) && QEnabled(q, ev) && (ev.SendCall? || ev.RecvCall?)
    requires View(t') == ViewAfter(q.k, KEvent(q, ev).value, q.k.current.value)
    ensures var c := q.k.current.value; var sem := if ev.SendCall? then q.empty else q.filled;
            var won := Acquire(q.k, sem, ev.timeout).1 == Done(Success);
            && KEvent(q, ev) == Some(CallAcquire(sem, ev.timeout)) && DataAfter(q, ev) == q
            && InFlight(q.pc[c], q.k.tasks[c]) == Unposted(q.pc[c], q.k.tasks[c]) == 0
            && InFlight(PcAfter(q, ev), t') == (if won then 1 else 0)
            && Unposted(PcAfter(q, ev), t') == (if won && ev.RecvCall? then 1 else 0)
            && (won <==> q.k.prims[sem].count > 0)
  {
  }

  lemma CountAfterAcquire(q: Queue, ev: QEvent, sem: PrimId, timeout: nat)
    requires WellFormed(q) && KInv(q.k) && QEnabled(q, ev) && KEvent(q, ev) == Some(CallAcquire(sem, timeout))
    requires sem == q.empty || sem == q.filled
    requires Acquire(q.k, sem, timeout).1 == Done(Success) <==> q.k.prims[sem].count > 0
    ensures var r := QStep(q, ev);
            && |r.k.prims| == |q.k.prims|
            && (forall x :: x in {q.empty, q.filled} ==> r.k.prims[x].Semaphore? && r.k.prims[x].max == q.k.prims[x].max)
            && (forall x :: x in {q.empty, q.filled} && x != sem ==> r.k.prims[x].count == q.k.prims[x].count)
            && r.k.prims[sem].count == (if q.k.prims[sem].count > 0 then q.k.prims[sem].count - 1 else 0)
  {
    hide QStep, KInv, Acquire;
    KernelSide(q, ev);
    assert QStep(q, ev).k.prims[q.empty] == PrimAfter(q.k, CallAcquire(sem, timeout), q.empty);
    assert QStep(q, ev).k.prims[q.filled] == PrimAfter(q.k, CallAcquire(sem, timeout), q.filled);
  }

  /** While the current task acquires, nobody else's view changes. */
  lemma ViewsInAcquire(q: Queue, ev: QEvent, t: TaskId)
    requires WellFormed(q) && KInv(q.k) && QEnabled(q, ev) && t < |q.pc|
    requires KEvent(q, ev).Some? && KEvent(q, ev).value.CallAcquire? && t != q.k.current.value
    ensures |QStep(q, ev).k.tasks| == |q.k.tasks| && View(QStep(q, ev).k.tasks[t]) == View(q.k.tasks[t])
  {
    hide QStep, KInv, Acquire;
    KernelSide(q, ev);
    assert View(QStep(q, ev).k.tasks[t]) == ViewAfter(q.k, KEvent(q, ev).value, t);
  }

  lemma AccountedCall(q: Queue, ev: QEvent)
    requires WellFormed(q) && KInv(q.k) && TasksOk(q) && Accounted(q) && QEnabled(q, ev)
    requires ev.SendCall? || ev.RecvCall?
    ensures WellFormed(QStep(q, ev)) && Accounted(QStep(q, ev))
  {
    hide QStep, KInv, Acquire, PcAfter, DataAfter, InFlight, Unposted, TaskAt, ViewAfter, PrimAfter;
    var r := QStep(q, ev);
    var c := q.k.current.value;
    KernelSide(q, ev);
    OwnPc(q, ev);
    OwnData(q, ev);
    CallShares(q, ev, r.k.tasks[c]);
    CountAfterAcquire(q, ev, if ev.SendCall? then q.empty else q.filled, ev.timeout);
    forall t | 0 <= t < |q.pc| && t != c
      ensures SameShares(q, r, t)
    {
      ViewsInAcquire(q, ev, t);
      SharesOfView(r.pc[t], q.k.tasks[t], r.k.tasks[t]);
    }
    OneMoves(q, r, c);
  }

  /** A step without a kernel call keeps the mover's token and moves messages and
      shares together. */
  lemma LocalShares(q: Queue)
    requires WellFormed(q) && QEnabled(q, Go) && KEvent(q, Go) == None
    requires TaskAt(q, q.k.current.value) && q.k.tasks[q.k.current.value].wait == None
    ensures var c := q.k.current.value; var pc' := PcAfter(q, Go); var t := q.k.tasks[c];
            && InFlight(pc', t) == InFlight(q.pc[c], t)
            && (Unposted(q.pc[c], t) <= |q.contents| ==>
                  |DataAfter(q, Go).contents| + Unposted(q.pc[c], t) == |q.contents| + Unposted(pc', t))
  {
  }

  /** Shares depend on a task's place and on its view of its wait. */
  lemma SharesOfView(pc: Pc, t: Tcb, t': Tcb)
    requires View(t) == View(t')
    ensures InFlight(pc, t) == InFlight(pc, t') && Unposted(pc, t) == Unposted(pc, t')
  {
  }

  lemma AccountedLocal(q: Queue)
    requires WellFormed(q) && KInv(q.k) && TasksOk(q) && Accounted(q) && QEnabled(q, Go)
    requires KEvent(q, Go) == None
    ensures WellFormed(QStep(q, Go)) && Accounted(QStep(q, Go))
  {
    hide QStep, KInv, PcAfter, DataAfter, InFlight, Unposted, TaskAt;
    var r := QStep(q, Go);
    var c := q.k.current.value;
    KernelSide(q, Go);
    OwnPc(q, Go);
    OwnData(q, Go);
    CarriesToken(q, c);
    RunnerAndChosen(q.k, q.lock);
    LocalShares(q);
    forall t | 0 <= t < |q.pc|
      ensures t != c ==> SameShares(q, r, t)
      ensures InFlight(r.pc[t], r.k.tasks[t]) == InFlight(r.pc[t], q.k.tasks[t])
      ensures Unposted(r.pc[t], r.k.tasks[t]) == Unposted(r.pc[t], q.k.tasks[t])
    {
      SharesOfView(r.pc[t], q.k.tasks[t], r.k.tasks[t]);
    }
    OneMoves(q, r, c);
  }

  /** Taking, waiting for and giving up the lock moves no token. */
  lemma LockShares(q: Queue, t': Tcb)
    requires WellFormed(q) && KInv(q.k) && QEnabled(q, Go)
    requires KEvent(q, Go) in {Some(CallAcquire(q.lock, WAIT_FOREVER)), Some(CallRelease(q.lock))}
    requires TaskAt(q, q.k.current.value)
    ensures var c := q.k.current.value;
            && DataAfter(q, Go) == q
            && InFlight(PcAfter(q, Go), t') == InFlight(q.pc[c], q.k.tasks[c])
            && Unposted(PcAfter(q, Go), t') == Unposted(q.pc[c], q.k.tasks[c])
  {
    hide KInv, Acquire;
    RunnerAndChosen(q.k, q.lock);
    AcquireOutcome(q.k, q.lock, WAIT_FOREVER);
  }

  lemma CountAfterLock(q: Queue)
    requires WellFormed(q) && KInv(q.k) && QEnabled(q, Go)
    requires KEvent(q, Go) in {Some(CallAcquire(q.lock, WAIT_FOREVER)), Some(CallRelease(q.lock))}
    ensures var r := QStep(q, Go);
            && |r.k.prims| == |q.k.prims|
            && forall x :: x in {q.empty, q.filled} ==> r.k.prims[x] == q.k.prims[x]
  {
    hide QStep, KInv, Acquire, Chosen;
    KernelSide(q, Go);
    assert QStep(q, Go).k.prims[q.empty] == PrimAfter(q.k, KEvent(q, Go).value, q.empty);
    assert QStep(q, Go).k.prims[q.filled] == PrimAfter(q.k, KEvent(q, Go).value, q.filled);
  }

  lemma SharesInUnlock(q: Queue, t: TaskId)
    requires WellFormed(q) && KInv(q.k) && TasksOk(q) && QEnabled(q, Go) && t < |q.pc|
    requires KEvent(q, Go) == Some(CallRelease(q.lock))
    ensures |QStep(q, Go).k.tasks| == |q.k.tasks|
    ensures var t' := QStep(q, Go).k.tasks[t];
            && InFlight(q.pc[t], t') == InFlight(q.pc[t], q.k.tasks[t])
            && Unposted(q.pc[t], t') == Unposted(q.pc[t], q.k.tasks[t])
  {
    hide QStep, KInv, Chosen;
    OtherViews(q, q.lock, t);
    RunnerAndChosen(q.k, q.lock);
    assert TaskAt(q, t);
  }

  lemma AccountedLock(q: Queue)
    requires WellFormed(q) && KInv(q.k) && TasksOk(q) && Accounted(q) && QEnabled(q, Go)
    requires KEvent(q, Go) in {Some(CallAcquire(q.lock, WAIT_FOREVER)), Some(CallRelease(q.lock))}
    ensures WellFormed(QStep(q, Go)) && Accounted(QStep(q, Go))
  {
    hide QStep, KInv, Acquire, PcAfter, DataAfter, InFlight, Unposted, TaskAt, ViewAfter, PrimAfter;
    var r := QStep(q, Go);
    var c := q.k.current.value;
    KernelSide(q, Go);
    OwnPc(q, Go);
    OwnData(q, Go);
    assert TaskAt(q, c);
    LockShares(q, r.k.tasks[c]);
    CountAfterLock(q);
    forall t | 0 <= t < |q.pc| && t != c
      ensures SameShares(q, r, t)
    {
      if KEvent(q, Go).value.CallAcquire? {
        ViewsInAcquire(q, Go, t);
        SharesOfView(r.pc[t], q.k.tasks[t], r.k.tasks[t]);
      } else {
        SharesInUnlock(q, t);
      }
    }
    OneMoves(q, r, c);
  }

  /** The task that posts gives up its token, and with it what it stood for. */
  lemma PostShares(q: Queue, o: PrimId)
    requires WellFormed(q) && QEnabled(q, Go)
    requires KEvent(q, Go) == Some(CallRelease(o)) && (o == q.empty || o == q.filled)
    requires TaskAt(q, q.k.current.value)
    ensures var c := q.k.current.value; var pc' := PcAfter(q, Go); var t := q.k.tasks[c];
            && InFlight(q.pc[c], t) == 1 && InFlight(pc', t) == 0 && pc' == Out
            && Unposted(q.pc[c], t) == (if o == q.filled then 1 else 0) && Unposted(pc', t) == 0
            && DataAfter(q, Go) == q
  {
  }

  /** Whoever waits for a token gains it when it is handed over. */
  lemma GrantShares(q: Queue, n: TaskId, o: PrimId, t': Tcb)
    requires WellFormed(q) && n < |q.pc| && TaskAt(q, n) && (o == q.empty || o == q.filled)
    requires q.k.tasks[n].wait == Some(o) && Won(t')
    ensures InFlight(q.pc[n], q.k.tasks[n]) == 0 && InFlight(q.pc[n], t') == 1
    ensures Unposted(q.pc[n], q.k.tasks[n]) == 0
    ensures Unposted(q.pc[n], t') == if o == q.filled then 1 else 0
  {
  }

  lemma OtherViews(q: Queue, o: PrimId, t: TaskId)
    requires WellFormed(q) && KInv(q.k) && QEnabled(q, Go) && KEvent(q, Go) == Some(CallRelease(o))
    requires t < |q.pc|
    ensures var r := QStep(q, Go);
            && |r.k.tasks| == |q.k.tasks|
            && (Chosen(q.k, o) == Some(t) ==> Won(r.k.tasks[t]))
            && (Chosen(q.k, o) != Some(t) ==> View(r.k.tasks[t]) == View(q.k.tasks[t]))
  {
    hide QStep, KInv, Chosen;
    KernelSide(q, Go);
    assert View(QStep(q, Go).k.tasks[t]) == ViewAfter(q.k, CallRelease(o), t);
  }

  lemma CountAfterPost(q: Queue, o: PrimId)
    requires WellFormed(q) && KInv(q.k) && QEnabled(q, Go) && KEvent(q, Go) == Some(CallRelease(o))
    requires (o == q.empty || o == q.filled) && q.k.prims[o].count < q.k.prims[o].max
    ensures var r := QStep(q, Go);
            && |r.k.prims| == |q.k.prims|
            && (forall x :: x in {q.empty, q.filled} ==> r.k.prims[x].Semaphore? && r.k.prims[x].max == q.k.prims[x].max)
            && (forall x :: x in {q.empty, q.filled} && x != o ==> r.k.prims[x].count == q.k.prims[x].count)
            && r.k.prims[o].count == q.k.prims[o].count + (if Chosen(q.k, o).Some? then 0 else 1)
  {
    hide QStep, KInv, Chosen;
    KernelSide(q, Go);
    assert QStep(q, Go).k.prims[q.empty] == PrimAfter(q.k, CallRelease(o), q.empty);
    assert QStep(q, Go).k.prims[q.filled] == PrimAfter(q.k, CallRelease(o), q.filled);
  }

  /** The poster's token goes, and the waiter chosen, if any, gains one. */
  lemma PostSums(q: Queue, o: PrimId)
    requires WellFormed(q) && KInv(q.k) && TasksOk(q) && QEnabled(q, Go) && WellFormed(QStep(q, Go))
    requires KEvent(q, Go) == Some(CallRelease(o)) && (o == q.empty || o == q.filled)
    ensures var r := QStep(q, Go);
            var gained := if Chosen(q.k, o).Some? then 1 else 0;
            && Sum(InFlights(r)) + 1 == Sum(InFlights(q)) + gained
            && Sum(Unposteds(r)) + (if o == q.filled then 1 else 0) ==
                 Sum(Unposteds(q)) + (if o == q.filled then gained else 0)
  {
    hide QStep, KInv, Chosen, PcAfter, DataAfter, InFlight, Unposted, TaskAt, ViewAfter, PrimAfter;
    var r := QStep(q, Go);
    var c := q.k.current.value;
    OwnPc(q, Go);
    RunnerAndChosen(q.k, o);
    assert TaskAt(q, c);
    PostShares(q, o);
    forall t | 0 <= t < |q.pc| && Chosen(q.k, o) != Some(t)
      ensures t != c ==> SameShares(q, r, t)
      ensures t == c ==> InFlights(r)[t] == 0 && Unposteds(r)[t] == 0
    {
      OtherViews(q, o, t);
      SharesOfView(r.pc[t], q.k.tasks[t], r.k.tasks[t]);
    }
    match Chosen(q.k, o)
    case None => OneMoves(q, r, c);
    case Some(n) =>
      OtherViews(q, o, n);
      GrantShares(q, n, o, r.k.tasks[n]);
      TwoMove(q, r, c, n);
  }

  /** Posting a token: it goes to a waiter or into the count, which cannot saturate. */
  lemma AccountedPost(q: Queue, o: PrimId)
    requires WellFormed(q) && KInv(q.k) && TasksOk(q) && Accounted(q) && QEnabled(q, Go)
    requires KEvent(q, Go) == Some(CallRelease(o)) && (o == q.empty || o == q.filled)
    ensures WellFormed(QStep(q, Go)) && Accounted(QStep(q, Go))
    ensures q.k.prims[o].count < q.k.prims[o].max
  {
    hide QStep, KInv, Chosen, PcAfter, DataAfter, InFlight, Unposted, TaskAt, ViewAfter, PrimAfter;
    KernelSide(q, Go);
    OwnData(q, Go);
    assert TaskAt(q, q.k.current.value);
    PostShares(q, o);
    CarriesToken(q, q.k.current.value);
    CountAfterPost(q, o);
    PostSums(q, o);
  }

  lemma AccountedStep(q: Queue, ev: QEvent)
    requires WellFormed(q) && KInv(q.k) && TasksOk(q) && Accounted(q) && QEnabled(q, ev)
    ensures WellFormed(QStep(q, ev)) && Accounted(QStep(q, ev))
  {
    hide QStep, KInv, TaskAt, Accounted;
    match ev
    case Env(e) => AccountedEnv(q, e);
    case SendCall(_, _) => AccountedCall(q, ev);
    case RecvCall(_) => AccountedCall(q, ev);
    case Go =>
      match KEvent(q, Go)
      case None => AccountedLocal(q);
      case Some(ke) =>
        if ke.prim == q.lock { AccountedLock(q); } else { AccountedPost(q, ke.prim); }
  }
}
