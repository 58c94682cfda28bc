/** The kernel's data and the effect of each of its operations on it.

    Task control blocks, mutexes and semaphores are named by their position in
    a table, so a C pointer is a number here and NULL is `None`.  A wait queue is
    the list of tasks in the live prefix of the C array. */
module KernelModel {
  import opened Sequences

  type TaskId = nat
  type PrimId = nat

  const TICK_MODULUS: nat := 0x1_0000_0000
  const WAIT_FOREVER: nat := 0xFFFF_FFFF

  datatype Option<+T> = None | Some(value: T)

  datatype TaskState = Ready | Running | Blocked | Suspended

  datatype Code = Success | Timeout | Fail

  /** The fields of a task control block that the C kernel code works on.  `wait`
      stands for the pair of back-pointers wait_queue and wait_count, which are
      always set and cleared together. */
  datatype Tcb = Tcb(state: TaskState, base: nat, priority: nat, sleep: nat,
                     wait: Option<PrimId>, result: Code)

  datatype Prim =
    | Mutex(locked: bool, owner: Option<TaskId>, waiters: seq<TaskId>)
    | Semaphore(count: nat, max: nat, waiters: seq<TaskId>)

  /** `pending` is the PENDSVSET bit: a context switch has been requested. */
  datatype State = State(maxTasks: nat, tasks: seq<Tcb>, current: Option<TaskId>,
                         prims: seq<Prim>, ticks: nat, launched: bool, pending: bool)

  /** How a call of acquire ends its first critical section: with a return code,
      or with the caller parked on the wait queue. */
  datatype Outcome = Done(code: Code) | Parked

  // ---------- structural well-formedness: every "pointer" leads somewhere ----------

  predicate TaskOk(t: Tcb, prims: nat) {
    t.wait.Some? ==> t.wait.value < prims
  }

  predicate PrimOk(p: Prim, tasks: nat, launched: bool) {
    && (forall x :: x in p.waiters ==> x < tasks)
    && (p.Mutex? ==>
          && (p.owner.Some? ==> p.owner.value < tasks)
          && (launched && p.locked ==> p.owner.Some?))
  }

  predicate WF(s: State) {
    && |s.tasks| <= s.maxTasks
    && (s.current.Some? ==> s.current.value < |s.tasks|)
    && (s.launched ==> s.current.Some?)
    && (forall t :: 0 <= t < |s.tasks| ==> TaskOk(s.tasks[t], |s.prims|))
    && (forall o :: 0 <= o < |s.prims| ==> PrimOk(s.prims[o], |s.tasks|, s.launched))
  }

  function SetWaiters(p: Prim, q: seq<TaskId>): Prim {
    p.(waiters := q)
  }

  function SetTask(s: State, t: TaskId, x: Tcb): State
    requires t < |s.tasks|
  {
    s.(tasks := s.tasks[t := x])
  }

  function SetPrim(s: State, o: PrimId, p: Prim): State
    requires o < |s.prims|
  {
    s.(prims := s.prims[o := p])
  }

  // ---------- start-up ----------

  function FreshTcb(priority: nat): Tcb {
    Tcb(Ready, priority, priority, 0, None, Success)
  }

  /** os_task_create, apart from the stack it builds. */
  function TaskCreate(s: State, priority: nat): State
    requires |s.tasks| < s.maxTasks
  {
    s.(tasks := s.tasks + [FreshTcb(priority)],
       current := if s.current == None then Some(|s.tasks|) else s.current)
  }

  function Launch(s: State): State
    requires WF(s)
  {
    Schedule(s).(launched := true)
  }

  // ---------- scheduler ----------

  predicate Runnable(t: Tcb) {
    t.state == Ready || t.state == Running
  }

  /** The best task among the first `k` slots of the cyclic scan from `start`. */
  function Scan(tasks: seq<Tcb>, start: nat, k: nat): (best: Option<TaskId>)
    requires |tasks| > 0
    ensures best.Some? ==> best.value < |tasks| && Runnable(tasks[best.value])
  {
    if k == 0 then None
    else
      var best := Scan(tasks, start, k - 1);
      var t := (start + (k - 1)) % |tasks|;
      if !Runnable(tasks[t]) then best
      else if best == None || tasks[t].priority > tasks[best.value].priority then Some(t)
      else best
  }

  function ScanStart(s: State): nat {
    if s.current.Some? then s.current.value + 1 else 0
  }

  /** os_scheduler. */
  function Schedule(s: State): State
    requires WF(s)
  {
    if |s.tasks| == 0 then s
    else
      var best := Scan(s.tasks, ScanStart(s), |s.tasks|);
      if best == None then s
      else
        var c := s.current;
        var t := if c.Some? && c != best && s.tasks[c.value].state == Running
                 then s.tasks[c.value := s.tasks[c.value].(state := Ready)] else s.tasks;
        s.(tasks := t[best.value := t[best.value].(state := Running)], current := best)
  }

  /** PendSV as the kernel's data sees it: the request is taken, then a pass is made. */
  function Switch(s: State): State
    requires WF(s)
  {
    Schedule(s.(pending := false))
  }

  // ---------- wait queues ----------

  /** wait_queue_remove. */
  function RemoveWaiter(s: State, t: TaskId): State
    requires WF(s) && t < |s.tasks|
  {
    match s.tasks[t].wait
    case None => s
    case Some(o) =>
      var p := s.prims[o];
      s.(tasks := s.tasks[t := s.tasks[t].(wait := None)],
         prims := s.prims[o := SetWaiters(p, Without(p.waiters, t))])
  }

  function Capacity(s: State, o: PrimId): int
    requires o < |s.prims|
  {
    if s.prims[o].Mutex? then s.maxTasks - 1 else s.maxTasks
  }

  /** What block_current does when the queue has room. */
  function Park(s: State, o: PrimId, timeout: nat): State
    requires WF(s) && o < |s.prims| && s.current.Some?
  {
    var c := s.current.value;
    var p := s.prims[o];
    s.(tasks := s.tasks[c := s.tasks[c].(wait := Some(o), result := Success,
                                         sleep := if timeout == WAIT_FOREVER then 0 else timeout,
                                         state := Blocked)],
       prims := s.prims[o := SetWaiters(p, p.waiters + [c])])
  }

  /** wake_task. */
  function Wake(s: State, t: TaskId): State
    requires WF(s) && t < |s.tasks|
  {
    var r := RemoveWaiter(s, t);
    SetTask(r, t, r.tasks[t].(sleep := 0, result := Success, state := Ready))
  }

  /** The best among the first `k` waiters. */
  function PickUpTo(tasks: seq<Tcb>, q: seq<TaskId>, k: nat): (best: Option<TaskId>)
    requires forall x :: x in q ==> x < |tasks|
    requires k <= |q|
    ensures best.Some? <==> k > 0
    ensures best.Some? ==> best.value in q
  {
    if k == 0 then None
    else
      var last := q[k - 1];
      assert last in q;
      var best := PickUpTo(tasks, q, k - 1);
      if best == None || tasks[last].priority > tasks[best.value].priority
      then Some(last) else best
  }

  /** pick_waiter. */
  function Pick(tasks: seq<Tcb>, q: seq<TaskId>): (best: Option<TaskId>)
    requires forall x :: x in q ==> x < |tasks|
    ensures best.Some? <==> q != []
    ensures best.Some? ==> best.value in q
  {
    PickUpTo(tasks, q, |q|)
  }

  // ---------- tick ----------

  /** The loop body of SysTick_Handler for task `i`. */
  function TickTask(s: State, i: TaskId): (r: State)
    requires WF(s) && i < |s.tasks|
  {
    var t := s.tasks[i];
    if t.sleep == 0 then s
    else if t.sleep > 1 then SetTask(s, i, t.(sleep := t.sleep - 1))
    else
      var s0 := SetTask(s, i, t.(sleep := 0));
      var s1 := if t.wait.Some?
                then var r := RemoveWaiter(s0, i); SetTask(r, i, r.tasks[i].(result := Timeout))
                else s0;
      SetTask(s1, i, s1.tasks[i].(state := Ready))
  }

  /** SysTick_Handler after its loop has visited the tasks below `i`. */
  function TickUpTo(s: State, i: nat): (r: State)
    requires WF(s) && i <= |s.tasks|
    ensures WF(r) && |r.tasks| == |s.tasks| && |r.prims| == |s.prims|
  {
    if i == 0 then s
    else
      var r := TickUpTo(s, i - 1);
      TickTaskWF(r, i - 1);
      TickTask(r, i - 1)
  }

  function Tick(s: State): State
    requires WF(s)
  {
    var s0 := s.(ticks := (s.ticks + 1) % TICK_MODULUS);
    TickUpTo(s0, |s.tasks|).(pending := true)
  }

  lemma {:induction false} WithoutSubset(q: seq<nat>, t: nat)
    ensures forall x :: x in Without(q, t) ==> x in q
  {
    if q == [] || q[0] == t {
    } else {
      WithoutSubset(q[1..], t);
    }
  }

  lemma TickTaskWF(s: State, i: TaskId)
    requires WF(s) && i < |s.tasks|
    ensures WF(TickTask(s, i))
    ensures |TickTask(s, i).tasks| == |s.tasks| && |TickTask(s, i).prims| == |s.prims|
  {
    if s.tasks[i].sleep == 1 && s.tasks[i].wait.Some? {
      WithoutSubset(s.prims[s.tasks[i].wait.value].waiters, i);
    }
  }

  /** os_yield. */
  function Yield(s: State): State {
    s.(pending := true)
  }

  // ---------- blocking calls ----------

  /** os_delay. */
  function Delay(s: State, ms: nat): State
    requires WF(s)
  {
    if !s.launched || ms == 0 then s
    else
      var c := s.current.value;
      SetTask(s, c, s.tasks[c].(sleep := ms, wait := None, state := Blocked)).(pending := true)
  }

  /** Priority inheritance: the owner is lent `priority` if its own is lower. */
  function Donate(s: State, owner: TaskId, priority: nat): State
    requires owner < |s.tasks|
  {
    if priority > s.tasks[owner].priority
    then SetTask(s, owner, s.tasks[owner].(priority := priority)) else s
  }

  /** os_mutex_acquire up to the point where it returns or yields. */
  function MutexAcquire(s: State, o: PrimId, timeout: nat): (State, Outcome)
    requires WF(s) && o < |s.prims| && s.prims[o].Mutex?
  {
    var m := s.prims[o];
    if !m.locked then (SetPrim(s, o, m.(locked := true, owner := s.current)), Done(Success))
    else if m.owner == s.current then (s, Done(Fail))
    else if timeout == 0 || !s.launched then (s, Done(Timeout))
    else
      var d := Donate(s, m.owner.value, s.tasks[s.current.value].priority);
      if |m.waiters| >= Capacity(d, o) then (d, Done(Fail))
      else (Park(d, o, timeout).(pending := true), Parked)
  }

  /** os_semaphore_acquire up to the point where it returns or yields. */
  function SemAcquire(s: State, o: PrimId, timeout: nat): (State, Outcome)
    requires WF(s) && o < |s.prims| && s.prims[o].Semaphore?
  {
    var m := s.prims[o];
    if m.count > 0 then (SetPrim(s, o, m.(count := m.count - 1)), Done(Success))
    else if timeout == 0 || !s.launched then (s, Done(Timeout))
    else if |m.waiters| >= Capacity(s, o) then (s, Done(Fail))
    else (Park(s, o, timeout).(pending := true), Parked)
  }

  function Acquire(s: State, o: PrimId, timeout: nat): (State, Outcome)
    requires WF(s) && o < |s.prims|
  {
    if s.prims[o].Mutex? then MutexAcquire(s, o, timeout) else SemAcquire(s, o, timeout)
  }

  // ---------- releases ----------

  /** os_mutex_release drops whatever the owner had been lent. */
  function DropDonation(s: State, o: PrimId): (r: State)
    requires WF(s) && o < |s.prims| && s.prims[o].Mutex?
    ensures WF(r) && r == s.(tasks := r.tasks) && |r.tasks| == |s.tasks|
    ensures forall t :: 0 <= t < |s.tasks| ==> r.tasks[t] == s.tasks[t].(priority := r.tasks[t].priority)
  {
    match s.prims[o].owner
    case None => s
    case Some(w) => SetTask(s, w, s.tasks[w].(priority := s.tasks[w].base))
  }

  /** os_mutex_release. */
  function MutexRelease(s: State, o: PrimId): State
    requires WF(s) && o < |s.prims| && s.prims[o].Mutex?
  {
    var d := DropDonation(s, o);
    var m := d.prims[o];
    match Pick(d.tasks, m.waiters)
    case Some(next) =>
      Wake(SetPrim(d, o, m.(owner := Some(next))), next).(pending := true)
    case None => SetPrim(d, o, m.(locked := false, owner := None))
  }

  /** os_semaphore_release. */
  function SemRelease(s: State, o: PrimId): State
    requires WF(s) && o < |s.prims| && s.prims[o].Semaphore?
  {
    var m := s.prims[o];
    match Pick(s.tasks, m.waiters)
    case Some(next) => Wake(s, next).(pending := true)
    case None => if m.count < m.max then SetPrim(s, o, m.(count := m.count + 1)) else s
  }

  function Release(s: State, o: PrimId): State
    requires WF(s) && o < |s.prims|
  {
    if s.prims[o].Mutex? then MutexRelease(s, o) else SemRelease(s, o)
  }
}
