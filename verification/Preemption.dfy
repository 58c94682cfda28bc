/** Where a task's borrowed priority comes from, and preemption over whole runs. */
module Preemption {
  import opened KernelModel
  import opened KernelInvariant
  import opened TickRefinement
  import opened KernelRuns
  import opened Scheduling
  import opened Priority
  import opened Idle

  // ---------- loans ----------

  /** A priority of `amount`, lent to a mutex owner by the task `from` when it began to
      wait for the mutex `through`; `expired` once that wait has timed out. */
  datatype Loan = Loan(through: PrimId, from: TaskId, amount: nat, expired: bool)

  /** What each task is running on: its own priority, or a loan. */
  type Ledger = seq<Option<Loan>>

  predicate TimesOut(s: State, t: TaskId, o: PrimId) {
    t < |s.tasks| && s.tasks[t].sleep == 1 && s.tasks[t].wait == Some(o)
  }

  /** A tick marks the loans whose lenders time out. */
  function Aged(s: State, n: Option<Loan>): Option<Loan> {
    match n
    case None => None
    case Some(l) => Some(l.(expired := l.expired || TimesOut(s, l.from, l.through)))
  }

  /** The caller parks on `o` and outranks its owner. */
  predicate Lends(s: State, o: PrimId, timeout: nat)
    requires WF(s) && o < |s.prims| && s.current.Some?
  {
    && Acquire(s, o, timeout).1 == Parked
    && s.prims[o].Mutex? && s.prims[o].owner.Some?
    && s.tasks[s.current.value].priority > s.tasks[s.prims[o].owner.value].priority
  }

  function LedgerAfter(s: State, l: Ledger, e: Event): (r: Ledger)
    requires WF(s) && Enabled(s, e) && |l| == |s.tasks|
    ensures |r| == |l|
  {
    match e
    case OnTick => seq(|l|, t requires 0 <= t < |l| => Aged(s, l[t]))
    case CallAcquire(o, timeout) =>
      var c := s.current.value;
      if Lends(s, o, timeout)
      then l[s.prims[o].owner.value := Some(Loan(o, c, s.tasks[c].priority, false))] else l
    case CallRelease(o) =>
      if s.prims[o].Mutex? && s.prims[o].owner.Some? then l[s.prims[o].owner.value := None] else l
    case _ => l
  }

  /** Task `t` is at its base priority, or above it by a loan through a mutex it owns,
      whose lender still waits for that mutex unless its wait has timed out. */
  predicate LoanOk(s: State, t: TaskId, n: Option<Loan>)
    requires t < |s.tasks|
  {
    match n
    case None => s.tasks[t].priority == s.tasks[t].base
    case Some(Loan(o, d, amount, expired)) =>
      && s.tasks[t].priority == amount > s.tasks[t].base
      && Owns(s, t, o)
      && (expired || WaitsForMutex(s, d, o))
  }

  predicate LoansOk(s: State, l: Ledger) {
    |l| == |s.tasks| && forall t :: 0 <= t < |l| ==> LoanOk(s, t, l[t])
  }

  lemma LoanTick(s: State, l: Ledger, t: TaskId)
    requires KInv(s) && LoansOk(s, l) && t < |l|
    ensures |Tick(s).tasks| == |s.tasks| && LoanOk(Tick(s), t, LedgerAfter(s, l, OnTick)[t])
  {
    TickIsSimultaneous(s);
    assert LoanOk(s, t, l[t]);
    if l[t].Some? && !l[t].value.expired {
      LenderQueued(s, l[t].value.from, l[t].value.through);
    }
  }

  lemma LenderQueued(s: State, d: TaskId, o: PrimId)
    requires KInv(s) && WaitsForMutex(s, d, o)
    ensures d < |s.tasks| && s.tasks[d].wait == Some(o)
  {
    assert PrimOk(s.prims[o], |s.tasks|, s.launched);
  }

  lemma LoanAcquire(s: State, l: Ledger, o: PrimId, timeout: nat, t: TaskId)
    requires KInv(s) && LoansOk(s, l) && CanRun(s) && o < |s.prims| && t < |l|
    ensures var r := Acquire(s, o, timeout).0;
            |r.tasks| == |s.tasks| && LoanOk(r, t, LedgerAfter(s, l, CallAcquire(o, timeout))[t])
  {
    hide Acquire, KInv;
    KInvWF(s);
    AcquireShape(s, o, timeout);
    AcquirePriorities(s, o, timeout);
    AcquireOutcome(s, o, timeout);
    assert LoanOk(s, t, l[t]);
    match Acquire(s, o, timeout).1
    case Parked =>
    case Done(code) =>
  }

  lemma LoanRelease(s: State, l: Ledger, o: PrimId, t: TaskId)
    requires KInv(s) && LoansOk(s, l) && o < |s.prims| && t < |l|
    ensures var r := Release(s, o);
            |r.tasks| == |s.tasks| && LoanOk(r, t, LedgerAfter(s, l, CallRelease(o))[t])
  {
    hide Release, KInv, Chosen, WF;
    KInvWF(s);
    ReleaseFrame(s, o);
    ReleasePriorities(s, o);
    assert LoanOk(s, t, l[t]);
  }

  lemma LoanQuiet(s: State, l: Ledger, e: Event, t: TaskId)
    requires KInv(s) && LoansOk(s, l) && Enabled(s, e) && t < |l| && (e.OnSwitch? || e.OnYield? || e.CallDelay?)
    ensures |Step(s, e).tasks| == |s.tasks| && LoanOk(Step(s, e), t, LedgerAfter(s, l, e)[t])
  {
    assert LoanOk(s, t, l[t]);
    if e.OnSwitch? {
      ScheduleFrame(s.(pending := false));
    }
  }

  lemma LoansStep(s: State, l: Ledger, e: Event)
    requires KInv(s) && LoansOk(s, l) && Enabled(s, e)
    ensures LoansOk(Step(s, e), LedgerAfter(s, l, e))
  {
    hide Release, Acquire, LoanOk, KInv, LedgerAfter, Tick;
    KInvWF(s);
    StepFrame(s, e);
    forall t | 0 <= t < |l|
      ensures LoanOk(Step(s, e), t, LedgerAfter(s, l, e)[t])
    {
      match e
      case OnTick => LoanTick(s, l, t);
      case CallAcquire(o, timeout) => LoanAcquire(s, l, o, timeout, t);
      case CallRelease(o) => LoanRelease(s, l, o, t);
      case _ => LoanQuiet(s, l, e, t);
    }
  }

  // ---------- loans over a run ----------

  function LedgerExec(s: State, l: Ledger, evs: seq<Event>): (r: Ledger)
    requires KInv(s) && |l| == |s.tasks| && Legal(s, evs)
    decreases |evs|
  {
    if evs == [] then l
    else
      StepInv(s, evs[0]);
      StepFrame(s, evs[0]);
      LedgerExec(Step(s, evs[0]), LedgerAfter(s, l, evs[0]), evs[1..])
  }

  /** Over every run, with any nesting: a task above its base priority owes it to a
      waiter of a mutex that it still owns, or to one that has timed out of that mutex
      since it got it. */
  lemma {:induction false} LoansRun(s: State, l: Ledger, evs: seq<Event>)
    requires KInv(s) && LoansOk(s, l) && Legal(s, evs)
    ensures LoansOk(Exec(s, evs), LedgerExec(s, l, evs))
    decreases |evs|
  {
    hide LoansOk, KInv, LedgerAfter, Step;
    if evs == [] {
    } else {
      StepInv(s, evs[0]);
      StepFrame(s, evs[0]);
      LoansSized(s, l);
      LoansStep(s, l, evs[0]);
      LoansRun(Step(s, evs[0]), LedgerAfter(s, l, evs[0]), evs[1..]);
    }
  }

  lemma LoansSized(s: State, l: Ledger)
    requires LoansOk(s, l)
    ensures |l| == |s.tasks|
  {
  }

  lemma LoansAboveBase(s: State, l: Ledger)
    requires LoansOk(s, l)
    ensures AtLeastBase(s)
  {
    forall t | 0 <= t < |s.tasks|
      ensures s.tasks[t].priority >= s.tasks[t].base
    {
      assert LoanOk(s, t, l[t]);
    }
  }

  /** A lender that still waits ranks exactly as high as what it lent. */
  predicate LendersRank(s: State, l: Ledger) {
    forall t :: 0 <= t < |l| && l[t].Some? && !l[t].value.expired ==>
      l[t].value.from < |s.tasks| && s.tasks[l[t].value.from].priority == l[t].value.amount
  }

  lemma LendersStep(s: State, l: Ledger, e: Event)
    requires KInv(s) && NotNested(s) && LoansOk(s, l) && LendersRank(s, l) && Enabled(s, e)
    ensures LendersRank(Step(s, e), LedgerAfter(s, l, e))
  {
    hide Step, KInv, Acquire;
    KInvWF(s);
    PrioritiesKept(s, e);
    forall t | 0 <= t < |l|
      ensures l[t].Some? && !l[t].value.expired ==>
                var d := l[t].value.from;
                d < |s.tasks| && Step(s, e).tasks[d].priority == s.tasks[d].priority
    {
      assert LoanOk(s, t, l[t]);
      if l[t].Some? && !l[t].value.expired {
        LenderQueued(s, l[t].value.from, l[t].value.through);
      }
    }
    if e.CallAcquire? {
      CallerKeepsPriority(s, e);
    }
  }

  lemma CallerKeepsPriority(s: State, e: Event)
    requires KInv(s) && Enabled(s, e) && e.CallAcquire?
    ensures Lends(s, e.prim, e.timeout) ==>
              var r := Step(s, e); var c := s.current.value;
              |r.tasks| == |s.tasks| && r.tasks[c].priority == s.tasks[c].priority
  {
    hide Acquire;
    AcquirePriorities(s, e.prim, e.timeout);
    AcquireOutcome(s, e.prim, e.timeout);
  }

  /** So when tasks take one mutex at a time, an owner above its base priority runs at
      exactly the priority of a task queued for its mutex, or of one that has timed out
      of that queue since the owner got the mutex. */
  lemma {:induction false} LendersRun(s: State, l: Ledger, evs: seq<Event>)
    requires KInv(s) && NotNested(s) && Inherits(s) && LoansOk(s, l) && LendersRank(s, l)
    requires Legal(s, evs) && LegalOneAtATime(s, evs)
    ensures LoansOk(Exec(s, evs), LedgerExec(s, l, evs)) && LendersRank(Exec(s, evs), LedgerExec(s, l, evs))
    decreases |evs|
  {
    hide LoansOk, LendersRank, KInv, LedgerAfter, Step, NotNested, Inherits, OneAtATime;
    if evs == [] {
    } else {
      StepInv(s, evs[0]);
      StepFrame(s, evs[0]);
      KInvWF(s);
      LoansSized(s, l);
      LoansStep(s, l, evs[0]);
      LendersStep(s, l, evs[0]);
      InheritsStep(s, evs[0]);
      LendersRun(Step(s, evs[0]), LedgerAfter(s, l, evs[0]), evs[1..]);
    }
  }

  // ---------- preemption ----------

  /** A run watched from the last pass on: the highest priority the current task has had
      since, what everybody borrows, and the loan that the current task has since given
      up in a release that found nobody waiting, with the mutex it released. */
  datatype Watch = Watch(s: State, peak: nat, loans: Ledger, drop: Option<(PrimId, Loan)>)

  function WatchStep(w: Watch, e: Event): (r: Watch)
    requires KInv(w.s) && |w.loans| == |w.s.tasks| && Enabled(w.s, e)
    ensures KInv(r.s) && r.s == Step(w.s, e) && |r.loans| == |r.s.tasks|
  {
    StepInv(w.s, e);
    StepFrame(w.s, e);
    var r := Step(w.s, e);
    var p := CurrentPriority(r);
    var loans := LedgerAfter(w.s, w.loans, e);
    var mine := w.loans[w.s.current.value];
    if e.OnSwitch? then Watch(r, p, loans, None)
    else Watch(r, if p > w.peak then p else w.peak, loans,
               if DropsQuietly(w.s, e) && mine.Some? then Some((e.prim, mine.value)) else w.drop)
  }

  predicate WatchLegal(w: Watch, evs: seq<Event>, idle: TaskId)
    decreases |evs|
  {
    && KInv(w.s) && |w.loans| == |w.s.tasks|
    && (evs == [] ||
        (&& Enabled(w.s, evs[0]) && IdleNeverBlocks(w.s, evs[0], idle)
         && WatchLegal(WatchStep(w, evs[0]), evs[1..], idle)))
  }

  function WatchExec(w: Watch, evs: seq<Event>, idle: TaskId): Watch
    requires WatchLegal(w, evs, idle)
    decreases |evs|
  {
    if evs == [] then w else WatchExec(WatchStep(w, evs[0]), evs[1..], idle)
  }

  /** With no switch pending the current task is RUNNING and nobody READY outranks its
      peak.  It is still at its peak, or has dropped to its base priority by giving up a
      loan of exactly that peak.  If the loan was through the mutex it released, the
      lender had timed out. */
  predicate InCharge(w: Watch)
    requires WF(w.s) && w.s.current.Some?
  {
    var c := w.s.tasks[w.s.current.value];
    && c.state == Running
    && (forall t :: 0 <= t < |w.s.tasks| && w.s.tasks[t].state == Ready ==> w.s.tasks[t].priority <= w.peak)
    && match w.drop
       case None => c.priority == w.peak
       case Some((m, loan)) =>
         c.priority == c.base < loan.amount == w.peak && (loan.through == m ==> loan.expired)
  }

  predicate Preemptive(w: Watch, idle: TaskId) {
    KInv(w.s) && IdleReady(w.s, idle) && LoansOk(w.s, w.loans) && (!w.s.pending ==> InCharge(w))
  }

  /** What an uncontended release drops is a loan through a mutex the task owns.  Its
      lender has timed out, or still waits for another mutex the task owns. */
  lemma QuietDrop(s: State, l: Ledger, e: Event)
    requires KInv(s) && LoansOk(s, l) && Enabled(s, e) && DropsQuietly(s, e)
    ensures var c := s.current.value;
            && |l| == |s.tasks| && l[c].Some?
            && var loan := l[c].value;
            && loan.amount == s.tasks[c].priority && Owns(s, c, loan.through)
            && (loan.expired || (loan.through != e.prim && WaitsForMutex(s, loan.from, loan.through)))
  {
    hide KInv;
    KInvWF(s);
    assert LoanOk(s, s.current.value, l[s.current.value]);
  }

  lemma ChargeKept(w: Watch, e: Event)
    requires KInv(w.s) && LoansOk(w.s, w.loans) && Enabled(w.s, e)
    requires !e.OnSwitch? && !Step(w.s, e).pending && (!w.s.pending ==> InCharge(w))
    ensures WF(WatchStep(w, e).s) && InCharge(WatchStep(w, e))
  {
    hide Step, KInv, LedgerAfter;
    KInvWF(w.s);
    KInvWF(WatchStep(w, e).s);
    var r := Step(w.s, e);
    QuietStep(w.s, e);
    StepFrame(w.s, e);
    LoansAboveBase(w.s, w.loans);
    if DropsQuietly(w.s, e) {
      QuietDrop(w.s, w.loans, e);
      QuietDropSize(w.s, e);
    } else {
      assert CurrentPriority(r) == CurrentPriority(w.s);
    }
  }

  lemma QuietDropSize(s: State, e: Event)
    requires KInv(s) && Enabled(s, e) && DropsQuietly(s, e)
    ensures var c := s.current.value;
            |Step(s, e).tasks| == |s.tasks| && Step(s, e).tasks[c].priority == s.tasks[c].base
  {
    ReleasePriorities(s, e.prim);
  }

  lemma PassInCharge(w: Watch, idle: TaskId)
    requires KInv(w.s) && IdleReady(w.s, idle) && |w.loans| == |w.s.tasks| && Enabled(w.s, OnSwitch)
    ensures WF(WatchStep(w, OnSwitch).s) && InCharge(WatchStep(w, OnSwitch))
  {
    SchedulePicks(w.s.(pending := false));
    ScheduleFrame(w.s.(pending := false));
  }

  lemma PreemptiveStep(w: Watch, e: Event, idle: TaskId)
    requires Preemptive(w, idle) && Enabled(w.s, e) && IdleNeverBlocks(w.s, e, idle)
    ensures Preemptive(WatchStep(w, e), idle)
  {
    hide Step, KInv, LedgerAfter, LoansOk, InCharge;
    KInvWF(w.s);
    LoansSized(w.s, w.loans);
    LoansStep(w.s, w.loans, e);
    IdleStep(w.s, e, idle);
    if e.OnSwitch? {
      PassInCharge(w, idle);
    } else if !Step(w.s, e).pending {
      ChargeKept(w, e);
    }
  }

  /** Preemption over every run, with any nesting. */
  lemma {:induction false} PreemptiveRun(w: Watch, evs: seq<Event>, idle: TaskId)
    requires Preemptive(w, idle) && WatchLegal(w, evs, idle)
    ensures Preemptive(WatchExec(w, evs, idle), idle)
    decreases |evs|
  {
    hide Preemptive, KInv, WatchStep;
    if evs == [] {
    } else {
      PreemptiveStep(w, evs[0], idle);
      PreemptiveRun(WatchStep(w, evs[0]), evs[1..], idle);
    }
  }

  /** What is possible while the idle task does not block is a run to watch. */
  lemma {:induction false} IdleRunWatched(w: Watch, evs: seq<Event>, idle: TaskId)
    requires Alive(w.s, idle) && |w.loans| == |w.s.tasks| && IdleRun(w.s, evs, idle)
    ensures WatchLegal(w, evs, idle)
    decreases |evs|
  {
    hide KInv, WatchStep, IdleNeverBlocks, Possible, Awake, IdleReady;
    if evs == [] {
    } else {
      AliveStep(w.s, evs[0], idle);
      IdleRunWatched(WatchStep(w, evs[0]), evs[1..], idle);
    }
  }

  // ---------- whose donations are dropped ----------

  /** Nobody waits for another mutex of the owner whose mutex is released. */
  predicate LeavesNobody(s: State, e: Event)
    requires WF(s) && Enabled(s, e)
  {
    e.CallRelease? && s.prims[e.prim].Mutex? && s.prims[e.prim].owner.Some? ==>
      forall p :: 0 <= p < |s.prims| && p != e.prim && Owns(s, s.prims[e.prim].owner.value, p) ==>
        s.prims[p].waiters == []
  }

  lemma NotNestedLeavesNobody(s: State, e: Event)
    requires WF(s) && Enabled(s, e) && NotNested(s)
    ensures LeavesNobody(s, e)
  {
    if e.CallRelease? && s.prims[e.prim].Mutex? && s.prims[e.prim].owner.Some? {
      assert Owns(s, s.prims[e.prim].owner.value, e.prim);
    }
  }

  predicate AlwaysLeavesNobody(w: Watch, evs: seq<Event>, idle: TaskId)
    requires WatchLegal(w, evs, idle)
    decreases |evs|
  {
    evs == [] ||
    (LeavesNobody(w.s, evs[0]) && AlwaysLeavesNobody(WatchStep(w, evs[0]), evs[1..], idle))
  }

  /** Runs in which tasks take one mutex at a time are of this kind. */
  lemma {:induction false} OneAtATimeLeavesNobody(w: Watch, evs: seq<Event>, idle: TaskId)
    requires WatchLegal(w, evs, idle) && Legal(w.s, evs) && LegalOneAtATime(w.s, evs)
    requires NotNested(w.s) && Inherits(w.s)
    ensures AlwaysLeavesNobody(w, evs, idle)
    decreases |evs|
  {
    hide KInv, WatchStep, NotNested, Inherits, OneAtATime, LeavesNobody;
    if evs == [] {
    } else {
      NotNestedLeavesNobody(w.s, evs[0]);
      InheritsStep(w.s, evs[0]);
      OneAtATimeLeavesNobody(WatchStep(w, evs[0]), evs[1..], idle);
    }
  }

  /** The dropped loan was left by a waiter that timed out. */
  predicate Leftover(w: Watch) {
    w.drop.Some? ==> w.drop.value.1.expired
  }

  lemma LeftoverStep(w: Watch, e: Event, idle: TaskId)
    requires Preemptive(w, idle) && Leftover(w) && Enabled(w.s, e) && LeavesNobody(w.s, e)
    ensures Leftover(WatchStep(w, e))
  {
    hide Step, KInv, LedgerAfter;
    KInvWF(w.s);
    if DropsQuietly(w.s, e) {
      QuietDrop(w.s, w.loans, e);
    }
  }

  /** If a task releases a mutex only while nobody waits for another of its mutexes, its
      present priority can be below its peak only after it dropped a donation left by a
      timed-out waiter. */
  lemma {:induction false} LeftoverRun(w: Watch, evs: seq<Event>, idle: TaskId)
    requires Preemptive(w, idle) && Leftover(w) && WatchLegal(w, evs, idle)
    requires AlwaysLeavesNobody(w, evs, idle)
    ensures var r := WatchExec(w, evs, idle);
            && Preemptive(r, idle) && Leftover(r)
            && (!r.s.pending && CurrentPriority(r.s) != r.peak ==>
                  r.drop.Some? && r.drop.value.1.expired && r.drop.value.1.amount == r.peak)
    decreases |evs|
  {
    hide KInv, WatchStep, LoansOk;
    if evs == [] {
      KInvWF(w.s);
    } else {
      PreemptiveStep(w, evs[0], idle);
      LeftoverStep(w, evs[0], idle);
      LeftoverRun(WatchStep(w, evs[0]), evs[1..], idle);
    }
  }

  // ---------- without timeouts ----------

  /** No wait for a mutex times out at this step. */
  predicate NobodyTimesOut(s: State, e: Event) {
    e.OnTick? ==> forall t, o :: 0 <= t < |s.tasks| && 0 <= o < |s.prims| && s.prims[o].Mutex? ==> !TimesOut(s, t, o)
  }

  predicate NeverTimesOut(w: Watch, evs: seq<Event>, idle: TaskId)
    requires WatchLegal(w, evs, idle)
    decreases |evs|
  {
    evs == [] ||
    (NobodyTimesOut(w.s, evs[0]) && NeverTimesOut(WatchStep(w, evs[0]), evs[1..], idle))
  }

  predicate Fresh(w: Watch) {
    w.drop == None && forall t :: 0 <= t < |w.loans| && w.loans[t].Some? ==> !w.loans[t].value.expired
  }

  lemma FreshStep(w: Watch, e: Event, idle: TaskId)
    requires Preemptive(w, idle) && Fresh(w) && Enabled(w.s, e)
    requires LeavesNobody(w.s, e) && NobodyTimesOut(w.s, e)
    ensures Fresh(WatchStep(w, e))
  {
    hide Step, KInv, Acquire;
    KInvWF(w.s);
    if DropsQuietly(w.s, e) {
      QuietDrop(w.s, w.loans, e);
    }
    forall t | 0 <= t < |w.loans| && w.loans[t].Some? && e.OnTick?
      ensures !Aged(w.s, w.loans[t]).value.expired
    {
      assert LoanOk(w.s, t, w.loans[t]);
      LenderQueued(w.s, w.loans[t].value.from, w.loans[t].value.through);
    }
  }

  /** If, besides, no wait for a mutex times out, then whenever no switch is pending no
      READY task outranks the current task as it now stands. */
  lemma {:induction false} StrictPreemption(w: Watch, evs: seq<Event>, idle: TaskId)
    requires Preemptive(w, idle) && Fresh(w) && WatchLegal(w, evs, idle)
    requires AlwaysLeavesNobody(w, evs, idle) && NeverTimesOut(w, evs, idle)
    ensures var s := WatchExec(w, evs, idle).s;
            && WF(s) && s.current.Some?
            && (!s.pending ==>
                  && s.tasks[s.current.value].state == Running
                  && forall t :: 0 <= t < |s.tasks| && s.tasks[t].state == Ready ==>
                       s.tasks[t].priority <= CurrentPriority(s))
    decreases |evs|
  {
    hide KInv, WatchStep, LoansOk;
    if evs == [] {
      KInvWF(w.s);
    } else {
      PreemptiveStep(w, evs[0], idle);
      FreshStep(w, evs[0], idle);
      StrictPreemption(WatchStep(w, evs[0]), evs[1..], idle);
    }
  }

  // ---------- the exact condition ----------

  /** While no switch is pending the current task is RUNNING and no READY task outranks it
      as it now stands. */
  predicate NobodyOutranks(s: State)
    requires WF(s)
  {
    AtCode(s) ==>
      && s.tasks[s.current.value].state == Running
      && forall t :: 0 <= t < |s.tasks| && s.tasks[t].state == Ready ==> s.tasks[t].priority <= CurrentPriority(s)
  }

  /** The current task gives up a donation, in a release that requests no switch, although a
      READY task outranks its base priority. */
  ghost predicate StepsDown(s: State, e: Event)
    requires WF(s) && Enabled(s, e)
  {
    && AtCode(s) && DropsQuietly(s, e)
    && exists t :: 0 <= t < |s.tasks| && s.tasks[t].state == Ready
                   && s.tasks[t].priority > s.tasks[s.current.value].base
  }

  lemma QuietDropStep(s: State, e: Event)
    requires KInv(s) && Enabled(s, e) && AtCode(s) && DropsQuietly(s, e)
    ensures var r := Step(s, e); var c := s.current.value;
            && WF(r) && AtCode(r) && r.current == Some(c) && |r.tasks| == |s.tasks|
            && r.tasks == s.tasks[c := s.tasks[c].(priority := s.tasks[c].base)]
  {
    StepInv(s, e);
    ReleaseTasks(s, e.prim);
    ReleasePriorities(s, e.prim);
    assert PrimInv(s.prims[e.prim]);
  }

  lemma PassPicksTop(s: State, idle: TaskId)
    requires KInv(s) && IdleReady(s, idle)
    ensures WF(Switch(s)) && NobodyOutranks(Switch(s))
  {
    var s0 := s.(pending := false);
    SchedulePicks(s0);
    ScheduleFrame(s0);
  }

  /** Under any nesting, and with any timeouts, a step keeps this exactly unless it steps
      down. */
  lemma StrictStep(s: State, e: Event, idle: TaskId)
    requires Alive(s, idle) && AtLeastBase(s) && Possible(s, e) && IdleNeverBlocks(s, e, idle)
    requires NobodyOutranks(s)
    ensures Enabled(s, e) && WF(Step(s, e))
    ensures NobodyOutranks(Step(s, e)) <==> !StepsDown(s, e)
  {
    hide KInv, Release, Acquire, Delay, Tick, Yield, Schedule;
    KInvWF(s);
    AliveStep(s, e, idle);
    KInvWF(Step(s, e));
    if e.OnSwitch? {
      PassPicksTop(s, idle);
    } else if AtCode(s) && DropsQuietly(s, e) {
      DropTop(s, e);
    } else if !Step(s, e).pending {
      QuietStep(s, e);
      QuietTop(s, e);
    }
  }

  lemma DropTop(s: State, e: Event)
    requires KInv(s) && Enabled(s, e) && NobodyOutranks(s) && AtCode(s) && DropsQuietly(s, e)
    ensures WF(Step(s, e)) && (NobodyOutranks(Step(s, e)) <==> !StepsDown(s, e))
  {
    hide KInv, Step;
    KInvWF(s);
    QuietDropStep(s, e);
    var r := Step(s, e);
    assert forall t :: 0 <= t < |s.tasks| ==> r.tasks[t].state == s.tasks[t].state;
    assert forall t :: 0 <= t < |s.tasks| && s.tasks[t].state == Ready ==> r.tasks[t] == s.tasks[t];
  }

  /** A step that requests no switch and drops nothing of the current task's own. */
  lemma QuietTop(s: State, e: Event)
    requires KInv(s) && AtLeastBase(s) && Enabled(s, e) && NobodyOutranks(s) && s.launched
    requires !e.OnSwitch? && !Step(s, e).pending && !DropsQuietly(s, e)
    ensures WF(Step(s, e)) && NobodyOutranks(Step(s, e))
  {
    hide KInv, Step;
    StepInv(s, e);
    KInvWF(s);
    KInvWF(Step(s, e));
    QuietStep(s, e);
    var r := Step(s, e);
    assert CurrentPriority(r) == CurrentPriority(s);
    forall t | 0 <= t < |r.tasks| && r.tasks[t].state == Ready
      ensures r.tasks[t].priority <= CurrentPriority(r)
    {
      assert r.tasks[t].priority <= s.tasks[t].priority;
    }
  }

  predicate AlwaysTop(s: State, evs: seq<Event>, idle: TaskId)
    requires IdleRun(s, evs, idle)
    decreases |evs|
  {
    NobodyOutranks(s) && (evs == [] || AlwaysTop(Step(s, evs[0]), evs[1..], idle))
  }

  ghost predicate NeverStepsDown(s: State, evs: seq<Event>, idle: TaskId)
    requires IdleRun(s, evs, idle) && Legal(s, evs)
    decreases |evs|
  {
    evs == [] || (!StepsDown(s, evs[0]) && NeverStepsDown(Step(s, evs[0]), evs[1..], idle))
  }

  /** Preemption is never violated during a run exactly if no step steps down. */
  lemma {:induction false} StrictRun(s: State, evs: seq<Event>, idle: TaskId)
    requires Alive(s, idle) && AtLeastBase(s) && NobodyOutranks(s) && IdleRun(s, evs, idle)
    ensures Legal(s, evs) && (AlwaysTop(s, evs, idle) <==> NeverStepsDown(s, evs, idle))
    decreases |evs|
  {
    hide Alive, Step, AtLeastBase, NobodyOutranks, StepsDown, Possible, IdleNeverBlocks;
    IdleRunLegal(s, evs, idle);
    if evs == [] {
    } else {
      StrictStep(s, evs[0], idle);
      AliveStep(s, evs[0], idle);
      AliveInv(s, idle);
      AtLeastBaseStep(s, evs[0]);
      if !StepsDown(s, evs[0]) {
        StrictRun(Step(s, evs[0]), evs[1..], idle);
      } else {
        NotAlwaysTop(Step(s, evs[0]), evs[1..], idle);
      }
    }
  }

  lemma AliveInv(s: State, idle: TaskId)
    requires Alive(s, idle)
    ensures KInv(s)
  {
  }

  lemma NotAlwaysTop(s: State, evs: seq<Event>, idle: TaskId)
    requires IdleRun(s, evs, idle) && !NobodyOutranks(s)
    ensures !AlwaysTop(s, evs, idle)
  {
  }

  // ---------- launch ----------

  function NoLoans(n: nat): (l: Ledger)
    ensures |l| == n && forall t :: 0 <= t < n ==> l[t] == None
  {
    seq(n, _ => None)
  }

  lemma PreemptiveAtLaunch(s: State, idle: TaskId)
    requires Booted(s) && idle < |s.tasks| && !s.pending
    ensures KInv(Launch(s)) && LoansOk(Launch(s), NoLoans(|s.tasks|)) && LendersRank(Launch(s), NoLoans(|s.tasks|))
    ensures var w := Watch(Launch(s), CurrentPriority(Launch(s)), NoLoans(|s.tasks|), None);
            Preemptive(w, idle) && Leftover(w) && Fresh(w)
    ensures var r := Launch(s); Alive(r, idle) && AtLeastBase(r) && NobodyOutranks(r)
  {
    hide KInv, Schedule;
    LaunchInv(s);
    AliveAtLaunch(s, idle);
    assert Runnable(s.tasks[idle]);
    SchedulePicks(s);
    ScheduleFrame(s);
  }
}
