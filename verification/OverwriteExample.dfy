/** A run in which a send that finds no slot loses its own message to an empty queue.
    The comment on os_queue_send promises that the oldest sample is given up rather than
    the new one; this run keeps to every rule and still loses the new one.  No receiver
    takes part: the only slot belongs to a sender that has not written yet. */
module OverwriteExample {
  import opened KernelModel
  import opened KernelInvariant
  import opened KernelRuns
  import opened QueueProtocol

  const LOCK := 0
  const EMPTY := 1
  const FILLED := 2

  /** Two tasks of equal priority; `c` is running, `e` slots are free. */
  function At(c: nat, pending: bool, owner: Option<TaskId>, e: nat): State
    requires c < 2
  {
    State(2,
          [Tcb(if c == 0 then Running else Ready, 1, 1, 0, None, Success),
           Tcb(if c == 1 then Running else Ready, 1, 1, 0, None, Success)],
          Some(c),
          [Mutex(owner.Some?, owner, []), Semaphore(e, 1, []), Semaphore(0, 1, [])],
          0, true, pending)
  }

  function Q(k: State, buf: nat, first: Pc, second: Pc, written: seq<nat>,
             popped: seq<(nat, bool)>, slotless: nat): Queue {
    Queue(k, LOCK, EMPTY, FILLED, [buf], 0, 0, [first, second], [], written, [], popped, slotless)
  }

  const STEPS := 9

  /** The run, state by state. */
  function Stage(i: nat): Queue {
    match i
    case 0 => Q(At(0, false, None, 1), 0, Out, Out, [], [], 0)
    // the first sender takes the slot and is switched out
    case 1 => Q(At(0, false, None, 0), 0, SendWantLock(7, true), Out, [], [], 0)
    case 2 => Q(At(0, true, None, 0), 0, SendWantLock(7, true), Out, [], [], 0)
    case 3 => Q(At(1, false, None, 0), 0, SendWantLock(7, true), Out, [], [], 0)
    // the second finds none and goes on as if the ring were full
    case 4 => Q(At(1, false, None, 0), 0, SendWantLock(7, true), SendWantLock(8, false), [], [], 0)
    case 5 => Q(At(1, false, Some(1), 0), 0, SendWantLock(7, true), SendWrite(8, false), [], [], 0)
    case 6 => Q(At(1, false, Some(1), 0), 8, SendWantLock(7, true), SendHead(8, false), [], [], 0)
    case 7 => Q(At(1, false, Some(1), 0), 8, SendWantLock(7, true), SendTail(8), [], [], 0)
    case 8 => Q(At(1, false, Some(1), 0), 8, SendWantLock(7, true), SendUnlock(false), [8], [(8, false)], 1)
    case _ => Q(At(1, false, None, 0), 8, SendWantLock(7, true), Out, [8], [(8, false)], 1)
  }

  /** And the steps between them. */
  function Move(i: nat): QEvent {
    match i
    case 0 => SendCall(7, 0)
    case 1 => Env(OnYield)
    case 2 => Env(OnSwitch)
    case 3 => SendCall(8, 0)
    case _ => Go
  }

  function MovesFrom(i: nat): seq<QEvent>
    requires i <= STEPS
    decreases STEPS - i
  {
    if i == STEPS then [] else [Move(i)] + MovesFrom(i + 1)
  }

  /** `Move(i)` takes stage `i` to the next. */
  predicate Moves(i: nat) {
    && WellFormed(Stage(i)) && QEnabled(Stage(i), Move(i))
    && QStep(Stage(i), Move(i)) == Stage(i + 1) && WellFormed(Stage(i + 1))
  }

  lemma {:induction false} PathRuns(i: nat)
    requires i <= STEPS && WellFormed(Stage(i))
    requires forall j :: i <= j < STEPS ==> Moves(j)
    ensures QLegal(Stage(i), MovesFrom(i)) && QExec(Stage(i), MovesFrom(i)) == Stage(STEPS)
    decreases STEPS - i
  {
    hide Stage, Move, QStep, QPossible, WellFormed;
    if i == STEPS {
    } else {
      assert Moves(i);
      assert ([Move(i)] + MovesFrom(i + 1))[1..] == MovesFrom(i + 1);
      PathRuns(i + 1);
    }
  }

  // ---------- the kernel's part ----------

  /** What a step needs to know of the kernel state it starts from. */
  lemma Fine(c: nat, pending: bool, owner: Option<TaskId>, e: nat)
    requires c < 2 && (owner.Some? ==> owner.value < 2)
    ensures var k := At(c, pending, owner, e);
            && WF(k) && k.current == Some(c) && |k.tasks| == 2 && |k.prims| == 3
            && k.prims[LOCK].Mutex? && k.prims[EMPTY].Semaphore? && k.prims[FILLED].Semaphore?
            && k.launched && k.pending == pending && (!pending ==> CanRun(k))
  {
  }

  lemma Rotate()
    ensures WF(At(0, true, None, 0)) && Switch(At(0, true, None, 0)) == At(1, false, None, 0)
  {
    var s := At(0, false, None, 0);
    assert Scan(s.tasks, 1, 0) == None;
    assert Scan(s.tasks, 1, 1) == Some(1);
    assert Scan(s.tasks, 1, 2) == Some(1);
  }

  lemma TakeAndDropLock()
    ensures var s := At(1, false, None, 0); var l := At(1, false, Some(1), 0);
            && WF(s) && WF(l) && CanRun(s) && CanRun(l)
            && Acquire(s, LOCK, WAIT_FOREVER) == (l, Done(Success)) && Release(l, LOCK) == s
  {
    var s := At(1, false, None, 0);
    assert s.prims[LOCK := Mutex(true, Some(1), [])] == At(1, false, Some(1), 0).prims;
  }

  lemma PollEmpty(c: nat, e: nat)
    requires c < 2 && e <= 1
    ensures var s := At(c, false, None, e);
            WF(s) && Acquire(s, EMPTY, 0) == (At(c, false, None, 0), Done(if e == 1 then Success else Timeout))
  {
    var s := At(c, false, None, e);
    assert s.prims[EMPTY := Semaphore(0, 1, [])] == At(c, false, None, 0).prims;
  }

  // ---------- the steps ----------

  lemma FirstSender(i: nat)
    requires i <= 2
    ensures Moves(i)
  {
    hide At, WF, CanRun, Acquire, Release, Switch;
    Fine(0, false, None, 1);
    Fine(0, false, None, 0);
    Fine(0, true, None, 0);
    Fine(1, false, None, 0);
    PollEmpty(0, 1);
    Rotate();
    YieldAt();
  }

  lemma YieldAt()
    ensures Yield(At(0, false, None, 0)) == At(0, true, None, 0)
  {
  }

  lemma SecondSender(i: nat)
    requires i in {3, 4, 8}
    ensures Moves(i)
  {
    hide At, WF, CanRun, Acquire, Release, Switch;
    Fine(1, false, None, 0);
    Fine(1, false, Some(1), 0);
    PollEmpty(1, 0);
    TakeAndDropLock();
  }

  lemma LockedSection(i: nat)
    requires 5 <= i < 8
    ensures Moves(i)
  {
    hide At, WF, CanRun, Acquire, Release, Switch;
    Fine(1, false, Some(1), 0);
  }

  lemma FreshKernel()
    ensures KInv(At(0, false, None, 1))
  {
    var s := At(0, false, None, 1);
    assert forall o :: 0 <= o < 3 ==> s.prims[o].waiters == [] && PrimInv(s.prims[o]);
  }

  lemma StartIsFresh()
    ensures QStarted(Stage(0)) && WellFormed(Stage(0))
  {
    FreshKernel();
    Fine(0, false, None, 1);
    hide KInv, WF;
  }

  /** From a fresh queue of capacity 1, by steps that are all allowed: message 8 is the
      only one that was ever written, nobody received anything, and the ring is empty. */
  lemma NewestCanBeLost()
    ensures var q := Stage(0); var evs := MovesFrom(0);
            && QStarted(q) && QLegal(q, evs)
            && var r := QExec(q, evs);
            && r.written == [8] && r.received == [] && r.contents == [] && r.popped == [(8, false)]
            && r.k == At(1, false, None, 0) && r.pc == [SendWantLock(7, true), Out]
  {
    hide Moves, At, QLegal, QExec, QStarted, WellFormed;
    StartIsFresh();
    forall i | 0 <= i < STEPS
      ensures Moves(i)
    {
      if i <= 2 {
        FirstSender(i);
      } else if 5 <= i < 8 {
        LockedSection(i);
      } else {
        SecondSender(i);
      }
    }
    PathRuns(0);
  }
}
