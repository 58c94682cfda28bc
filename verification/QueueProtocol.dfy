/** The bounded message queue under any number of producers and consumers.

    os_queue_send and os_queue_receive are broken into the steps between which other
    tasks and interrupts can run: take a token, take the lock, touch the buffer, move
    an index, unlock, post the other token.  The rest of the kernel runs on in between. */
module QueueProtocol {
  import opened KernelModel
  import opened KernelInvariant
  import opened KernelRuns

  /** Where a task stands in the queue's code. */
  datatype Pc =
    | Out
    | SendWaitSlot(m: nat)
    | SendWantLock(m: nat, had: bool)
    | SendWaitLock(m: nat, had: bool)
    | SendWrite(m: nat, had: bool)
    | SendHead(m: nat, had: bool)
    | SendTail(m: nat)
    | SendUnlock(had: bool)
    | SendPost
    | SendAbort(had: bool)
    | RecvWaitItem
    | RecvWantLock
    | RecvWaitLock
    | RecvRead
    | RecvTail(v: nat)
    | RecvUnlock(v: nat)
    | RecvPost(v: nat)
    | RecvAbort

  /** `k`, `buf`, `head` and `tail` are the program's; `lock`, `empty` and `filled` name
      the queue's three primitives.  The rest is history: `contents` are the unread
      messages in order, `written` and `received` all messages sent and read so far, and
      `popped` the messages that left the front, marked with whether they were read. */
  datatype Queue = Queue(k: State, lock: PrimId, empty: PrimId, filled: PrimId,
                         buf: seq<nat>, head: nat, tail: nat, pc: seq<Pc>,
                         contents: seq<nat>, written: seq<nat>, received: seq<nat>,
                         popped: seq<(nat, bool)>, slotless: nat)

  /** `Env` is any kernel step that is not part of an operation on this queue; `Go`
      is the current task's next step inside one. */
  datatype QEvent = Env(e: Event) | SendCall(m: nat, timeout: nat) | RecvCall(timeout: nat) | Go

  predicate WellFormed(q: Queue) {
    && WF(q.k) && |q.pc| == |q.k.tasks| && |q.buf| > 0
    && q.head < |q.buf| && q.tail < |q.buf|
    && q.lock < |q.k.prims| && q.empty < |q.k.prims| && q.filled < |q.k.prims|
    && q.lock != q.empty && q.lock != q.filled && q.empty != q.filled
    && q.k.prims[q.lock].Mutex? && q.k.prims[q.empty].Semaphore? && q.k.prims[q.filled].Semaphore?
  }

  predicate Ours(q: Queue, o: PrimId) {
    o == q.lock || o == q.empty || o == q.filled
  }

  predicate QPossible(q: Queue, ev: QEvent)
    requires WellFormed(q)
  {
    match ev
    case Env(e) =>
      && Possible(q.k, e)
      && (e.CallAcquire? || e.CallRelease? ==> !Ours(q, e.prim))
      && (e.CallAcquire? || e.CallDelay? ==> q.pc[q.k.current.value] == Out)
    case SendCall(_, _) => AtCode(q.k) && q.pc[q.k.current.value] == Out
    case RecvCall(_) => AtCode(q.k) && q.pc[q.k.current.value] == Out
    case Go => AtCode(q.k) && q.pc[q.k.current.value] != Out
  }

  /** And whoever acts is RUNNING. */
  predicate QEnabled(q: Queue, ev: QEvent)
    requires WellFormed(q)
  {
    QPossible(q, ev) && (if ev.Env? then Enabled(q.k, ev.e) else CanRun(q.k))
  }

  /** The kernel call, if any, that the step makes. */
  function KEvent(q: Queue, ev: QEvent): (r: Option<Event>)
    requires WellFormed(q) && QPossible(q, ev)
    ensures r.Some? ==> Possible(q.k, r.value)
    ensures r.Some? && QEnabled(q, ev) ==> Enabled(q.k, r.value)
  {
    match ev
    case Env(e) => Some(e)
    case SendCall(_, timeout) => Some(CallAcquire(q.empty, timeout))
    case RecvCall(timeout) => Some(CallAcquire(q.filled, timeout))
    case Go =>
      match q.pc[q.k.current.value]
      case SendWantLock(_, _) => Some(CallAcquire(q.lock, WAIT_FOREVER))
      case RecvWantLock => Some(CallAcquire(q.lock, WAIT_FOREVER))
      case SendUnlock(_) => Some(CallRelease(q.lock))
      case RecvUnlock(_) => Some(CallRelease(q.lock))
      case SendPost => Some(CallRelease(q.filled))
      case RecvPost(_) => Some(CallRelease(q.empty))
      case SendAbort(had) => if had then Some(CallRelease(q.empty)) else None
      case RecvAbort => Some(CallRelease(q.filled))
      case _ => None
  }

  /** Where the current task stands after its step. */
  function PcAfter(q: Queue, ev: QEvent): Pc
    requires WellFormed(q) && QPossible(q, ev) && !ev.Env?
  {
    var c := q.k.current.value;
    var won := q.k.tasks[c].result == Success;
    match ev
    case SendCall(m, timeout) =>
      var out := Acquire(q.k, q.empty, timeout).1;
      if out == Parked then SendWaitSlot(m) else SendWantLock(m, out == Done(Success))
    case RecvCall(timeout) =>
      var out := Acquire(q.k, q.filled, timeout).1;
      if out == Parked then RecvWaitItem else if out == Done(Success) then RecvWantLock else Out
    case Go =>
      match q.pc[c]
      case SendWaitSlot(m) => SendWantLock(m, won)
      case SendWantLock(m, had) =>
        var out := Acquire(q.k, q.lock, WAIT_FOREVER).1;
        if out == Parked then SendWaitLock(m, had)
        else if out == Done(Success) then SendWrite(m, had) else SendAbort(had)
      case SendWaitLock(m, had) => if won then SendWrite(m, had) else SendAbort(had)
      case SendWrite(m, had) => SendHead(m, had)
      case SendHead(m, had) => if had then SendUnlock(true) else SendTail(m)
      case SendTail(_) => SendUnlock(false)
      case SendUnlock(had) => if had then SendPost else Out
      case SendPost => Out
      case SendAbort(_) => Out
      case RecvWaitItem => if won then RecvWantLock else Out
      case RecvWantLock =>
        var out := Acquire(q.k, q.lock, WAIT_FOREVER).1;
        if out == Parked then RecvWaitLock
        else if out == Done(Success) then RecvRead else RecvAbort
      case RecvWaitLock => if won then RecvRead else RecvAbort
      case RecvRead => RecvTail(q.buf[q.tail])
      case RecvTail(v) => RecvUnlock(v)
      case RecvUnlock(v) => RecvPost(v)
      case RecvPost(_) => Out
      case RecvAbort => Out
      case Out => Out
  }

  function Next(i: nat, cap: nat): nat
    requires cap > 0
  {
    (i + 1) % cap
  }

  /** The buffer, the indices and the history after the current task's step. */
  function DataAfter(q: Queue, ev: QEvent): Queue
    requires WellFormed(q) && QPossible(q, ev)
  {
    if !ev.Go? then q
    else
      var cap := |q.buf|;
      match q.pc[q.k.current.value]
      case SendWrite(m, _) => q.(buf := q.buf[q.head := m])
      case SendHead(m, had) =>
        var h := q.(head := Next(q.head, cap));
        if had then h.(contents := q.contents + [m], written := q.written + [m]) else h
      case SendTail(m) =>
        var c := q.contents + [m];
        q.(tail := Next(q.tail, cap), contents := c[1..], written := q.written + [m],
           popped := q.popped + [(c[0], false)], slotless := q.slotless + 1)
      case RecvTail(v) =>
        q.(tail := Next(q.tail, cap), received := q.received + [v],
           contents := if q.contents == [] then [] else q.contents[1..],
           popped := if q.contents == [] then q.popped else q.popped + [(q.contents[0], true)])
      case _ => q
  }

  function QStep(q: Queue, ev: QEvent): Queue
    requires WellFormed(q) && QPossible(q, ev)
  {
    var k' := if KEvent(q, ev).Some? then Step(q.k, KEvent(q, ev).value) else q.k;
    var pc' := if ev.Env? then q.pc else q.pc[q.k.current.value := PcAfter(q, ev)];
    DataAfter(q, ev).(k := k', pc := pc')
  }

  predicate QLegal(q: Queue, evs: seq<QEvent>)
    decreases |evs|
  {
    && WellFormed(q)
    && (evs == [] || (QEnabled(q, evs[0]) && QLegal(QStep(q, evs[0]), evs[1..])))
  }

  function QExec(q: Queue, evs: seq<QEvent>): (r: Queue)
    requires QLegal(q, evs)
    ensures WellFormed(r)
    decreases |evs|
  {
    if evs == [] then q else QExec(QStep(q, evs[0]), evs[1..])
  }

  /** os_queue_init, in a kernel whose tasks have just been launched. */
  predicate QStarted(q: Queue) {
    && WellFormed(q) && KInv(q.k)
    && (forall t :: 0 <= t < |q.pc| ==> q.pc[t] == Out && q.k.tasks[t].wait == None)
    && q.k.prims[q.lock] == Mutex(false, None, [])
    && q.k.prims[q.empty] == Semaphore(|q.buf|, |q.buf|, [])
    && q.k.prims[q.filled] == Semaphore(0, |q.buf|, [])
    && q.head == 0 && q.tail == 0
    && q.contents == [] && q.written == [] && q.received == [] && q.popped == [] && q.slotless == 0
  }
}
