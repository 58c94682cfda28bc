/** Nested locking at its worst.  Task 1 owns both mutexes, task 2 waits for the second and
    lends it priority 2, and task 1 releases the first. */
module NestingExample {
  import opened KernelModel
  import opened KernelInvariant
  import opened TickRefinement
  import opened KernelRuns
  import opened Scheduling
  import opened Priority
  import opened Idle
  import opened Preemption

  const IDLE: TaskId := 0
  const STEPS: nat := 9

  function Tasks(a: Tcb, b: Tcb): seq<Tcb> {
    [FreshTcb(0), a, b]
  }

  function A(state: TaskState, priority: nat): Tcb {
    Tcb(state, 1, priority, 0, None, Success)
  }

  function B(state: TaskState, sleep: nat, wait: Option<PrimId>): Tcb {
    Tcb(state, 2, 2, sleep, wait, Success)
  }

  function Lock(owner: Option<TaskId>, q: seq<TaskId>): Prim {
    Mutex(owner.Some?, owner, q)
  }

  function At(a: Tcb, b: Tcb, current: TaskId, first: Option<TaskId>, second: Option<TaskId>,
              q: seq<TaskId>, ticks: nat, pending: bool): State {
    State(3, Tasks(a, b), Some(current), [Lock(first, []), Lock(second, q)], ticks, true, pending)
  }

  /** Three tasks of priorities 0, 1 and 2 and two free mutexes. */
  function Start(): State {
    State(3, Tasks(FreshTcb(1), FreshTcb(2)), Some(0), [Lock(None, []), Lock(None, [])], 0, false, false)
  }

  const LOAN := Loan(1, 2, 2, false)

  /** The run, state by state. */
  function Stage(i: nat): Watch {
    var none := [None, None, None];
    var lent := [None, Some(LOAN), None];
    match i
    case 0 => Watch(At(A(Ready, 1), B(Running, 0, None), 2, None, None, [], 0, false), 2, none, None)
    case 1 => Watch(At(A(Ready, 1), B(Blocked, 1, None), 2, None, None, [], 0, true), 2, none, None)
    case 2 => Watch(At(A(Running, 1), B(Blocked, 1, None), 1, None, None, [], 0, false), 1, none, None)
    case 3 => Watch(At(A(Running, 1), B(Blocked, 1, None), 1, Some(1), None, [], 0, false), 1, none, None)
    case 4 => Watch(At(A(Running, 1), B(Blocked, 1, None), 1, Some(1), Some(1), [], 0, false), 1, none, None)
    case 5 => Watch(At(A(Running, 1), B(Ready, 0, None), 1, Some(1), Some(1), [], 1, true), 1, none, None)
    case 6 => Watch(At(A(Ready, 1), B(Running, 0, None), 2, Some(1), Some(1), [], 1, false), 2, none, None)
    case 7 => Watch(At(A(Ready, 2), B(Blocked, 0, Some(1)), 2, Some(1), Some(1), [2], 1, true), 2, lent, None)
    case 8 => Watch(At(A(Running, 2), B(Blocked, 0, Some(1)), 1, Some(1), Some(1), [2], 1, false), 2, lent, None)
    case _ => Watch(At(A(Running, 1), B(Blocked, 0, Some(1)), 1, None, Some(1), [2], 1, false), 2, none, Some((0, LOAN)))
  }

  function Move(i: nat): Event {
    match i
    case 0 => CallDelay(1)
    case 1 => OnSwitch
    case 2 => CallAcquire(0, WAIT_FOREVER)
    case 3 => CallAcquire(1, WAIT_FOREVER)
    case 4 => OnTick
    case 5 => OnSwitch
    case 6 => CallAcquire(1, WAIT_FOREVER)
    case 7 => OnSwitch
    case _ => CallRelease(0)
  }

  function MovesFrom(i: nat): seq<Event>
    requires i <= STEPS
    decreases STEPS - i
  {
    if i == STEPS then [] else [Move(i)] + MovesFrom(i + 1)
  }

  /** A pass that picks `to`. */
  lemma Pass(s: State, to: TaskId)
    requires WF(s) && s.current.Some? && IsChoice(s.(pending := false), to)
    ensures var c := s.current.value; var t := s.tasks;
            var t' := if c != to && t[c].state == Running then t[c := t[c].(state := Ready)] else t;
            Switch(s) == s.(pending := false, current := Some(to), tasks := t'[to := t'[to].(state := Running)])
  {
    var s0 := s.(pending := false);
    SchedulePicks(s0);
    ChoiceUnique(s0, Switch(s).current.value, to);
  }

  predicate Moves(i: nat) {
    var w := Stage(i);
    KInv(w.s) && Enabled(w.s, Move(i)) && WatchStep(w, Move(i)) == Stage(i + 1)
  }

  lemma Move0()
    requires KInv(Stage(0).s)
    ensures Moves(0)
  {
  }

  lemma Move1()
    requires KInv(Stage(1).s)
    ensures Moves(1)
  {
    hide KInv, Switch;
    KInvWF(Stage(1).s);
    Pass(Stage(1).s, 1);
  }

  lemma Move2()
    requires KInv(Stage(2).s)
    ensures Moves(2)
  {
  }

  lemma Move3()
    requires KInv(Stage(3).s)
    ensures Moves(3)
  {
  }

  /** The tick that ends the sleep of task 2. */
  lemma WakeUp()
    ensures TickAll(Stage(4).s) == Stage(5).s
  {
    hide Expired;
    var s := Stage(4).s;
    var r := Stage(5).s;
    assert Ticked(s.tasks[0]) == r.tasks[0] && Ticked(s.tasks[1]) == r.tasks[1] && Ticked(s.tasks[2]) == r.tasks[2];
    assert TickAll(s).tasks == r.tasks;
    assert SetWaiters(s.prims[0], []) == r.prims[0] && SetWaiters(s.prims[1], []) == r.prims[1];
    assert TickAll(s).prims == r.prims;
  }

  lemma Move4()
    requires KInv(Stage(4).s)
    ensures Moves(4)
  {
    TickIsSimultaneous(Stage(4).s);
    hide Tick, TickAll;
    WakeUp();
    assert LedgerAfter(Stage(4).s, Stage(4).loans, OnTick) == Stage(5).loans;
  }

  lemma Move5()
    requires KInv(Stage(5).s)
    ensures Moves(5)
  {
    hide KInv, Switch;
    KInvWF(Stage(5).s);
    Pass(Stage(5).s, 2);
  }

  lemma Move6()
    requires KInv(Stage(6).s)
    ensures Moves(6)
  {
    var s := Stage(6).s;
    assert s.prims[1].waiters + [2] == [2];
    assert Step(s, Move(6)).tasks == Stage(7).s.tasks;
    assert LedgerAfter(s, Stage(6).loans, Move(6)) == Stage(7).loans;
  }

  lemma Move7()
    requires KInv(Stage(7).s)
    ensures Moves(7)
  {
    hide KInv, Switch;
    KInvWF(Stage(7).s);
    Pass(Stage(7).s, 1);
  }

  lemma Move8()
    requires KInv(Stage(8).s)
    ensures Moves(8)
  {
  }

  lemma Moved(i: nat)
    requires i < STEPS && Moves(i)
    ensures var w := Stage(i);
            && KInv(w.s) && |w.loans| == |w.s.tasks| && Enabled(w.s, Move(i)) && IdleNeverBlocks(w.s, Move(i), IDLE)
            && WatchStep(w, Move(i)) == Stage(i + 1)
            && KInv(Stage(i + 1).s) && |Stage(i + 1).loans| == |Stage(i + 1).s.tasks|
  {
    hide KInv, WatchStep;
  }

  lemma {:induction false} PathRuns(i: nat)
    requires i <= STEPS && KInv(Stage(i).s) && |Stage(i).loans| == |Stage(i).s.tasks|
    requires forall j :: i <= j < STEPS && KInv(Stage(j).s) ==> Moves(j)
    ensures WatchLegal(Stage(i), MovesFrom(i), IDLE)
    ensures WatchExec(Stage(i), MovesFrom(i), IDLE) == Stage(STEPS)
    decreases STEPS - i
  {
    hide KInv, WatchStep, Stage, Move, Enabled, Moves;
    if i == STEPS {
    } else {
      assert Moves(i);
      Moved(i);
      assert MovesFrom(i)[1..] == MovesFrom(i + 1);
      PathRuns(i + 1);
    }
  }

  lemma StartIsBooted()
    ensures Booted(Start())
  {
  }

  lemma FirstPass()
    ensures WF(Start()) && Launch(Start()) == Stage(0).s
  {
    SchedulePicks(Start());
    ChoiceUnique(Start(), Schedule(Start()).current.value, 2);
  }

  lemma Launched()
    ensures Booted(Start()) && Launch(Start()) == Stage(0).s && KInv(Stage(0).s)
    ensures Preemptive(Stage(0), IDLE) && Leftover(Stage(0)) && Fresh(Stage(0))
  {
    StartIsBooted();
    PreemptiveAtLaunch(Start(), IDLE);
    FirstPass();
    hide KInv, Launch, Booted, LoansOk;
    assert NoLoans(3) == Stage(0).loans;
  }

  /** In this run, legal from launch and without a single timeout, task 1 drops below the
      priority of a task that still waits for it: the release does not meet `KeepsRank`, and
      what it drops was not left by a timed-out waiter. */
  lemma NestedDropIsLive()
    ensures Booted(Start()) && KInv(Launch(Start()))
    ensures var w := Watch(Launch(Start()), 2, NoLoans(3), None); var evs := MovesFrom(0);
            && Preemptive(w, IDLE) && Leftover(w) && Fresh(w) && WatchLegal(w, evs, IDLE)
            && var r := WatchExec(w, evs, IDLE);
            && WF(r.s) && !r.s.pending && r.s.current == Some(1) && CurrentPriority(r.s) == 1 < r.peak
            && r.drop == Some((0, LOAN)) && !LOAN.expired
            && Owns(r.s, 1, LOAN.through) && WaitsForMutex(r.s, LOAN.from, LOAN.through)
            && !Inherits(r.s)
  {
    hide Moves, WatchLegal, WatchExec, Preemptive, KInv, Booted, Launch;
    Launched();
    assert NoLoans(3) == Stage(0).loans;
    AllMove();
    PathRuns(0);
    Lost();
  }

  lemma AllMove()
    ensures forall j :: 0 <= j < STEPS && KInv(Stage(j).s) ==> Moves(j)
  {
    hide Moves, KInv, Stage;
    forall j | 0 <= j < STEPS && KInv(Stage(j).s)
      ensures Moves(j)
    {
      match j
      case 0 => Move0();
      case 1 => Move1();
      case 2 => Move2();
      case 3 => Move3();
      case 4 => Move4();
      case 5 => Move5();
      case 6 => Move6();
      case 7 => Move7();
      case 8 => Move8();
    }
  }

  lemma Lost()
    ensures var r := Stage(STEPS);
            && WF(r.s) && CurrentPriority(r.s) == 1
            && Owns(r.s, 1, 1) && WaitsForMutex(r.s, 2, 1) && !Inherits(r.s)
  {
    var s := Stage(STEPS).s;
    assert Owns(s, 1, 1) && WaitsForMutex(s, 2, 1);
    assert s.tasks[1].priority < s.tasks[2].priority;
  }
}
