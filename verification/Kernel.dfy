/** The kernel as the C code has it: a task table, primitives with their wait-queue
    arrays, and operations that update them in place.  Every operation is proved to
    have exactly the effect that the model gives it. */
module Kernel {
  import opened Sequences
  import opened KernelModel
  import opened KernelInvariant
  import opened TickRefinement

  /** The scalar fields of os_mutex_t and os_semaphore_t. */
  datatype Head =
    | MutexHead(locked: bool, owner: Option<TaskId>, waitCount: nat)
    | SemaphoreHead(count: nat, max: nat, waitCount: nat)

  function PrimOf(h: Head, live: seq<TaskId>): Prim {
    match h
    case MutexHead(locked, owner, _) => Mutex(locked, owner, live)
    case SemaphoreHead(count, max, _) => Semaphore(count, max, live)
  }

  function SetCount(h: Head, n: nat): Head {
    h.(waitCount := n)
  }

  class Kernel {
    const maxTasks: nat
    const tasks: array<Tcb>             // os_tasks
    const heads: array<Head>
    const slots: seq<array<TaskId>>     // the wait_queue array inside each primitive
    var taskCount: nat
    var current: Option<TaskId>         // current_tcb
    var ticks: nat                      // os_ticks
    var running: bool                   // kernel_running
    var pending: bool                   // the PENDSVSET bit
    ghost var model: State

    ghost function Repr(): set<object> {
      {this, tasks, heads} + set a | a in slots
    }

    predicate Fits(h: Head, room: nat) {
      && h.waitCount <= room
      && (room as int) == if h.MutexHead? then maxTasks - 1 else maxTasks
    }

    ghost predicate Valid()
      reads Repr()
    {
      && tasks.Length == maxTasks && taskCount <= maxTasks
      && |slots| == heads.Length == |model.prims|
      && (forall o, p :: 0 <= o < p < |slots| ==> slots[o] != slots[p])
      && (forall o :: 0 <= o < |slots| ==>
            && Fits(heads[o], slots[o].Length)
            && model.prims[o] == PrimOf(heads[o], slots[o][..heads[o].waitCount]))
      && model == State(maxTasks, tasks[..taskCount], current, model.prims, ticks, running, pending)
    }

    /** os_kernel_init.  The application supplies the storage of its primitives. */
    constructor (maxTasks: nat, slots: seq<array<TaskId>>, mutex: seq<bool>)
      requires |slots| == |mutex|
      requires forall o, p :: 0 <= o < p < |slots| ==> slots[o] != slots[p]
      requires forall o :: 0 <= o < |slots| ==>
                 slots[o].Length == if mutex[o] then maxTasks - 1 else maxTasks
      ensures Valid() && fresh(Repr() - set a | a in slots) && this.slots == slots
      ensures model == State(maxTasks, [], None, model.prims, 0, false, false)
      ensures forall o :: 0 <= o < |slots| ==>
                model.prims[o] == if mutex[o] then Mutex(false, None, []) else Semaphore(0, 0, [])
      ensures Booted(model)
    {
      this.maxTasks := maxTasks;
      this.slots := slots;
      tasks := new Tcb[maxTasks](_ => FreshTcb(0));
      heads := new Head[|slots|](o requires 0 <= o < |slots| =>
                 if mutex[o] then MutexHead(false, None, 0) else SemaphoreHead(0, 0, 0));
      taskCount, current, ticks, running, pending := 0, None, 0, false, false;
      model := State(maxTasks, [],  None,
                     seq(|slots|, o requires 0 <= o < |slots| =>
                       if mutex[o] then Mutex(false, None, []) else Semaphore(0, 0, [])),
                     0, false, false);
    }

    lemma Sizes()
      requires Valid()
      ensures |model.prims| == |slots| && |model.tasks| == taskCount
      ensures model.current == current && model.launched == running
    {
    }

    /** Which of the two structs `o` names. */
    predicate IsMutex(o: PrimId)
      reads Repr()
      requires Valid() && o < |slots|
      ensures IsMutex(o) <==> model.prims[o].Mutex?
    {
      heads[o].MutexHead?
    }

    // ---------- single updates ----------

    method SetTcb(t: TaskId, x: Tcb)
      requires Valid() && t < taskCount
      modifies tasks, this`model
      ensures Valid() && model == SetTask(old(model), t, x)
    {
      tasks[t] := x;
      model := SetTask(model, t, x);
    }

    /** Changes a primitive's scalar fields, but not the length of its queue. */
    method SetHead(o: PrimId, h: Head)
      requires Valid() && o < |slots|
      requires h.MutexHead? <==> heads[o].MutexHead?
      requires h.waitCount == heads[o].waitCount
      modifies heads, this`model
      ensures Valid() && model == SetPrim(old(model), o, PrimOf(h, old(model).prims[o].waiters))
    {
      heads[o] := h;
      model := SetPrim(model, o, PrimOf(h, model.prims[o].waiters));
    }

    // ---------- wait queues ----------

    /** The scan of wait_queue_remove and the shift that closes the gap. */
    static method Unlink(q: array<TaskId>, count: nat, t: TaskId) returns (left: nat)
      requires count <= q.Length
      modifies q
      ensures left <= count && q[..left] == Without(old(q[..count]), t)
    {
      ghost var was := q[..count];
      var i := 0;
      left := count;
      while i < count
        invariant i <= count == left && q[..count] == was && t !in was[..i]
      {
        if q[i] == t {
          var j := i;
          while j + 1 < count
            invariant i <= j < count && i < count && left == count
            invariant forall x :: 0 <= x < i ==> q[x] == was[x]
            invariant forall x :: i <= x < j ==> q[x] == was[x + 1]
            invariant forall x :: j < x < count ==> q[x] == was[x]
          {
            q[j] := q[j + 1];
            j := j + 1;
          }
          left := count - 1;
          WithoutSplit(was, i);
          assert q[..left] == was[..i] + was[i + 1..];
          return;
        }
        i := i + 1;
      }
      assert was[..count] == was;
    }

    /** wait_queue_remove. */
    method WaitQueueRemove(t: TaskId)
      requires Valid() && WF(model) && t < taskCount
      modifies Repr()
      ensures Valid() && model == RemoveWaiter(old(model), t)
      ensures taskCount == old(taskCount)
    {
      assert TaskOk(model.tasks[t], |model.prims|);
      if tasks[t].wait == None {
        return;
      }
      Detach(tasks[t].wait.value, t);
      SetTcb(t, tasks[t].(wait := None));
    }

    /** Pulls task `t` out of the queue of `o`. */
    method Detach(o: PrimId, t: TaskId)
      requires Valid() && o < |slots|
      modifies heads, slots[o], this`model
      ensures Valid()
      ensures model == SetPrim(old(model), o, SetWaiters(old(model).prims[o], Without(old(model).prims[o].waiters, t)))
    {
      var left := Unlink(slots[o], heads[o].waitCount, t);
      heads[o] := SetCount(heads[o], left);
      model := SetPrim(model, o, SetWaiters(model.prims[o], Without(model.prims[o].waiters, t)));
    }

    /** Puts task `t` at the end of the queue of `o`. */
    method Attach(o: PrimId, t: TaskId)
      requires Valid() && o < |slots| && heads[o].waitCount < slots[o].Length
      modifies heads, slots[o], this`model
      ensures Valid()
      ensures model == SetPrim(old(model), o, SetWaiters(old(model).prims[o], old(model).prims[o].waiters + [t]))
    {
      var n := heads[o].waitCount;
      var q := slots[o];
      ghost var was := q[..n];
      q[n] := t;
      heads[o] := SetCount(heads[o], n + 1);
      assert q[..n + 1] == was + [t];
      model := SetPrim(model, o, SetWaiters(model.prims[o], model.prims[o].waiters + [t]));
    }

    /** block_current: parks the running task, unless the queue is full. */
    method BlockCurrent(o: PrimId, timeout: nat) returns (parked: bool)
      requires Valid() && WF(model) && o < |slots| && current.Some?
      modifies Repr()
      ensures Valid()
      ensures parked <==> |old(model).prims[o].waiters| < Capacity(old(model), o)
      ensures model == if parked then Park(old(model), o, timeout) else old(model)
    {
      if heads[o].waitCount >= slots[o].Length {
        return false;
      }
      var c := current.value;
      Attach(o, c);
      SetTcb(c, tasks[c].(wait := Some(o), result := Success,
                          sleep := if timeout == WAIT_FOREVER then 0 else timeout,
                          state := Blocked));
      return true;
    }

    /** wake_task. */
    method WakeTask(t: TaskId)
      requires Valid() && WF(model) && t < taskCount
      modifies Repr()
      ensures Valid() && model == Wake(old(model), t)
    {
      WaitQueueRemove(t);
      SetTcb(t, tasks[t].(sleep := 0, result := Success, state := Ready));
    }

    /** pick_waiter. */
    method PickWaiter(o: PrimId) returns (best: Option<TaskId>)
      requires Valid() && WF(model) && o < |slots|
      ensures forall x :: x in model.prims[o].waiters ==> x < |model.tasks|
      ensures best == Pick(model.tasks, model.prims[o].waiters)
    {
      assert PrimOk(model.prims[o], |model.tasks|, model.launched);
      ghost var live := model.prims[o].waiters;
      var q := slots[o];
      best := None;
      var i := 0;
      while i < heads[o].waitCount
        invariant i <= heads[o].waitCount == |live|
        invariant best == PickUpTo(model.tasks, live, i)
      {
        assert q[i] == live[i] && live[i] in live;
        if best == None || tasks[q[i]].priority > tasks[best.value].priority {
          best := Some(q[i]);
        }
        i := i + 1;
      }
    }

    // ---------- tasks and scheduling ----------

    /** os_task_create, apart from the stack.  `entry` 0 is the NULL task pointer. */
    method TaskCreate(entry: nat, stackWords: nat, priority: nat) returns (ok: bool)
      requires Valid()
      modifies Repr()
      ensures Valid()
      ensures ok <==> |old(model).tasks| < maxTasks && entry != 0 && stackWords >= 64
      ensures model == if ok then KernelModel.TaskCreate(old(model), priority) else old(model)
      ensures ok ==> model.tasks == old(model).tasks + [Tcb(Ready, priority, priority, 0, None, Success)]
    {
      if taskCount >= maxTasks || entry == 0 || stackWords < 64 {
        return false;
      }
      tasks[taskCount] := FreshTcb(priority);
      if current == None {
        current := Some(taskCount);
      }
      taskCount := taskCount + 1;
      model := KernelModel.TaskCreate(model, priority);
      return true;
    }

    /** The cyclic scan of os_scheduler. */
    method BestTask() returns (best: Option<TaskId>)
      requires Valid() && WF(model) && taskCount > 0
      ensures best == Scan(model.tasks, ScanStart(model), |model.tasks|)
    {
      var start := if current.Some? then current.value + 1 else 0;
      best := None;
      var k := 0;
      while k < taskCount
        invariant k <= taskCount && best == Scan(model.tasks, start, k)
      {
        var t := (start + k) % taskCount;
        if tasks[t].state == Ready || tasks[t].state == Running {
          if best == None || tasks[t].priority > tasks[best.value].priority {
            best := Some(t);
          }
        }
        k := k + 1;
      }
    }

    /** os_scheduler. */
    method Schedule()
      requires Valid() && WF(model)
      modifies Repr()
      ensures Valid() && model == KernelModel.Schedule(old(model)) && taskCount == old(taskCount)
    {
      if taskCount == 0 {
        return;
      }
      var best := BestTask();
      if best == None {
        return;
      }
      if current.Some? && current != best && tasks[current.value].state == Running {
        SetTcb(current.value, tasks[current.value].(state := Ready));
      }
      SetTcb(best.value, tasks[best.value].(state := Running));
      current := best;
      model := model.(current := best);
    }

    /** os_kernel_launch, up to the branch into the first task. */
    method Launch()
      requires Valid() && WF(model) && model.tasks != []
      requires current.Some?
      modifies Repr()
      ensures Valid() && model == KernelModel.Launch(old(model))
    {
      Schedule();
      running := true;
      model := model.(launched := true);
    }

    /** SysTick_Handler's work on one task. */
    method TickOne(i: TaskId)
      requires Valid() && WF(model) && i < taskCount
      modifies Repr()
      ensures Valid() && model == TickTask(old(model), i) && taskCount == old(taskCount)
    {
      var t := tasks[i];
      if t.sleep == 0 {
        return;
      }
      SetTcb(i, t.(sleep := t.sleep - 1));
      if tasks[i].sleep == 0 {
        if tasks[i].wait.Some? {
          WaitQueueRemove(i);
          SetTcb(i, tasks[i].(result := Timeout));
        }
        SetTcb(i, tasks[i].(state := Ready));
      }
    }

    /** SysTick_Handler: the loop over tasks, and what it amounts to. */
    method Tick()
      requires Valid() && WF(model)
      modifies Repr()
      ensures Valid() && model == KernelModel.Tick(old(model))
      ensures Linked(old(model)) ==> model == TickAll(old(model))
    {
      hide TickTask, TickAll, Linked;
      ghost var was := model;
      ticks := (ticks + 1) % TICK_MODULUS;
      model := model.(ticks := ticks);
      ghost var start := model;
      var i := 0;
      while i < taskCount
        invariant Valid() && i <= taskCount == |start.tasks|
        invariant WF(start) && model == TickUpTo(start, i)
      {
        TickOne(i);
        i := i + 1;
      }
      pending := true;
      model := model.(pending := true);
      if Linked(was) {
        TickIsSimultaneous(was);
      }
    }

    /** Taking the PendSV exception clears the request. */
    method TakeRequest()
      requires Valid()
      modifies this`pending, this`model
      ensures Valid() && model == old(model).(pending := false)
    {
      pending := false;
      model := model.(pending := false);
    }

    /** PendSV as the kernel's data sees it: the request is taken, and the handler calls
        os_scheduler. */
    method Switch()
      requires Valid() && WF(model)
      modifies Repr()
      ensures Valid() && model == KernelModel.Switch(old(model))
    {
      TakeRequest();
      Schedule();
    }

    /** os_yield requests a switch. */
    method Yield()
      requires Valid()
      modifies this`pending, this`model
      ensures Valid() && model == KernelModel.Yield(old(model)) == old(model).(pending := true)
    {
      pending := true;
      model := model.(pending := true);
    }

    /** os_delay. */
    method Delay(ms: nat)
      requires Valid() && WF(model)
      modifies Repr()
      ensures Valid() && model == KernelModel.Delay(old(model), ms)
    {
      if !running || ms == 0 {
        return;
      }
      var c := current.value;
      SetTcb(c, tasks[c].(sleep := ms, wait := None, state := Blocked));
      Yield();
    }

    // ---------- mutex ----------

    /** os_mutex_init, of a mutex nobody is using. */
    method MutexInit(o: PrimId)
      requires Valid() && o < |slots| && model.prims[o].Mutex?
      modifies heads, this`model
      ensures Valid() && model == SetPrim(old(model), o, Mutex(false, None, []))
    {
      heads[o] := MutexHead(false, None, 0);
      model := SetPrim(model, o, Mutex(false, None, []));
    }

    /** os_mutex_acquire, up to its return or its yield. */
    method MutexAcquire(o: PrimId, timeout: nat) returns (out: Outcome)
      requires Valid() && WF(model) && o < |slots| && model.prims[o].Mutex?
      modifies Repr()
      ensures Valid() && (model, out) == KernelModel.MutexAcquire(old(model), o, timeout)
    {
      var m := heads[o];
      assert PrimOk(model.prims[o], |model.tasks|, model.launched);
      if !m.locked {
        SetHead(o, m.(locked := true, owner := current));
        return Done(Success);
      }
      if m.owner == current {
        return Done(Fail);
      }
      if timeout == 0 || !running {
        return Done(Timeout);
      }
      var mine := tasks[current.value].priority;
      var owner := m.owner.value;
      if mine > tasks[owner].priority {
        SetTcb(owner, tasks[owner].(priority := mine));
      }
      var parked := BlockCurrent(o, timeout);
      if !parked {
        return Done(Fail);
      }
      Yield();
      return Parked;
    }

    /** The first part of os_mutex_release: the owner drops what it was lent. */
    method DropOwnersDonation(o: PrimId)
      requires Valid() && WF(model) && o < |slots| && model.prims[o].Mutex?
      modifies Repr()
      ensures Valid() && model == DropDonation(old(model), o) && taskCount == old(taskCount)
    {
      assert PrimOk(model.prims[o], |model.tasks|, model.launched);
      if heads[o].owner.Some? {
        var w := heads[o].owner.value;
        SetTcb(w, tasks[w].(priority := tasks[w].base));
      }
    }

    /** os_mutex_release. */
    method MutexRelease(o: PrimId)
      requires Valid() && WF(model) && o < |slots| && model.prims[o].Mutex?
      modifies Repr()
      ensures Valid() && model == KernelModel.MutexRelease(old(model), o)
    {
      hide DropDonation, Wake, Pick, Fits;
      DropOwnersDonation(o);
      var next := PickWaiter(o);
      if next.Some? {
        SetHead(o, heads[o].(owner := next));
        WakeTask(next.value);
        Yield();
        return;
      }
      SetHead(o, heads[o].(locked := false, owner := None));
    }

    // ---------- semaphore ----------

    /** os_semaphore_init, of a semaphore nobody is using. */
    method SemInit(o: PrimId, initial: nat, max: nat)
      requires Valid() && o < |slots| && model.prims[o].Semaphore?
      modifies heads, this`model
      ensures Valid() && model == SetPrim(old(model), o, Semaphore(initial, max, []))
    {
      heads[o] := SemaphoreHead(initial, max, 0);
      model := SetPrim(model, o, Semaphore(initial, max, []));
    }

    /** os_semaphore_acquire, up to its return or its yield. */
    method SemAcquire(o: PrimId, timeout: nat) returns (out: Outcome)
      requires Valid() && WF(model) && o < |slots| && model.prims[o].Semaphore?
      modifies Repr()
      ensures Valid() && (model, out) == KernelModel.SemAcquire(old(model), o, timeout)
    {
      var m := heads[o];
      if m.count > 0 {
        SetHead(o, m.(count := m.count - 1));
        return Done(Success);
      }
      if timeout == 0 || !running {
        return Done(Timeout);
      }
      var parked := BlockCurrent(o, timeout);
      if !parked {
        return Done(Fail);
      }
      Yield();
      return Parked;
    }

    /** os_semaphore_release. */
    method SemRelease(o: PrimId)
      requires Valid() && WF(model) && o < |slots| && model.prims[o].Semaphore?
      modifies Repr()
      ensures Valid() && model == KernelModel.SemRelease(old(model), o)
    {
      assert PrimOk(model.prims[o], |model.tasks|, model.launched);
      var next := PickWaiter(o);
      if next.Some? {
        WakeTask(next.value);
        Yield();
        return;
      }
      var m := heads[o];
      if m.count < m.max {
        SetHead(o, m.(count := m.count + 1));
      }
    }
  }
}
