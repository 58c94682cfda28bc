/** What every step of every producer and consumer keeps true of a message queue. */
module QueueInvariant {
  import opened Sequences
  import opened KernelModel
  import opened KernelInvariant
  import opened KernelRuns
  import opened Ring
  import opened QueueProtocol

  // ---------- where each task stands, and what it waits for ----------

  predicate Won(t: Tcb) {
    t.wait == None && t.result == Success
  }

  /** A task at `pc` inside the section that the lock protects. */
  predicate Inside(pc: Pc) {
    || pc.SendWrite? || pc.SendHead? || pc.SendTail? || pc.SendUnlock?
    || pc.RecvRead? || pc.RecvTail? || pc.RecvUnlock?
  }

  /** What a task at `pc` may be waiting for, and whether it is the lock's owner. */
  predicate StandsOk(q: Queue, pc: Pc, t: Tcb, owner: bool)
    requires WellFormed(q)
  {
    match pc
    case Out => !owner && (t.wait.Some? ==> !Ours(q, t.wait.value))
    case SendWaitSlot(_) => !owner && (t.wait == Some(q.empty) || (t.wait == None && t.result != Fail))
    case RecvWaitItem => !owner && (t.wait == Some(q.filled) || (t.wait == None && t.result != Fail))
    case SendWaitLock(_, _) => if owner then Won(t) else t.wait == Some(q.lock) && t.sleep == 0
    case RecvWaitLock => if owner then Won(t) else t.wait == Some(q.lock) && t.sleep == 0
    case SendAbort(_) => false
    case RecvAbort => false
    case _ => t.wait == None && (owner <==> Inside(pc))
  }

  predicate OwnsLock(q: Queue, t: TaskId)
    requires WellFormed(q)
  {
    q.k.prims[q.lock].owner == Some(t)
  }

  predicate TaskAt(q: Queue, t: TaskId)
    requires WellFormed(q) && t < |q.pc|
  {
    StandsOk(q, q.pc[t], q.k.tasks[t], OwnsLock(q, t))
  }

  predicate TasksOk(q: Queue)
    requires WellFormed(q)
  {
    forall t :: 0 <= t < |q.pc| ==> TaskAt(q, t)
  }

  // ---------- tokens in flight ----------

  /** A token taken from one semaphore and not yet posted to the other. */
  function InFlight(pc: Pc, t: Tcb): nat {
    match pc
    case SendWaitSlot(_) => if Won(t) then 1 else 0
    case SendWantLock(_, had) => if had then 1 else 0
    case SendWaitLock(_, had) => if had then 1 else 0
    case SendWrite(_, had) => if had then 1 else 0
    case SendHead(_, had) => if had then 1 else 0
    case SendUnlock(had) => if had then 1 else 0
    case SendPost => 1
    case RecvWaitItem => if Won(t) then 1 else 0
    case RecvWantLock => 1
    case RecvWaitLock => 1
    case RecvRead => 1
    case RecvTail(_) => 1
    case RecvUnlock(_) => 1
    case RecvPost(_) => 1
    case _ => 0
  }

  /** A message in the ring that the filled count does not show: written but not yet
      posted, or granted to a receiver that has not read it yet. */
  function Unposted(pc: Pc, t: Tcb): nat {
    match pc
    case SendUnlock(had) => if had then 1 else 0
    case SendPost => 1
    case RecvWaitItem => if Won(t) then 1 else 0
    case RecvWantLock => 1
    case RecvWaitLock => 1
    case RecvRead => 1
    case RecvTail(_) => 1
    case _ => 0
  }

  function InFlights(q: Queue): (r: seq<nat>)
    requires WellFormed(q)
    ensures |r| == |q.pc|
    ensures forall t :: 0 <= t < |r| ==> r[t] == InFlight(q.pc[t], q.k.tasks[t])
  {
    seq(|q.pc|, (t: nat) requires t < |q.pc| => InFlight(q.pc[t], q.k.tasks[t]))
  }

  function Unposteds(q: Queue): (r: seq<nat>)
    requires WellFormed(q)
    ensures |r| == |q.pc|
    ensures forall t :: 0 <= t < |r| ==> r[t] == Unposted(q.pc[t], q.k.tasks[t])
  {
    seq(|q.pc|, (t: nat) requires t < |q.pc| => Unposted(q.pc[t], q.k.tasks[t]))
  }

  /** No token is lost or made up, and the messages in the ring are those posted,
      plus those written or granted but not yet accounted for. */
  predicate Accounted(q: Queue)
    requires WellFormed(q)
  {
    && q.k.prims[q.empty].max == |q.buf| && q.k.prims[q.filled].max == |q.buf|
    && q.k.prims[q.empty].count + q.k.prims[q.filled].count + Sum(InFlights(q)) == |q.buf|
    && q.k.prims[q.filled].count + Sum(Unposteds(q)) == |q.contents|
  }

  // ---------- the ring ----------

  /** How buffer, indices and contents stand while the lock's owner is at `pc`. */
  predicate RingAt(q: Queue, pc: Pc)
    requires WellFormed(q)
  {
    var n := |q.contents|;
    var cap := |q.buf|;
    match pc
    case SendHead(m, had) =>
      && q.head == Slot(q.tail, n, cap)
      && Holds(q.buf, q.tail, q.contents + [m], if had then 0 else 1)
    case SendTail(m) =>
      && q.head == Slot(q.tail, n + 1, cap)
      && Holds(q.buf, q.tail, q.contents + [m], 1)
    case RecvTail(v) =>
      && q.head == Slot(q.tail, n, cap) && Holds(q.buf, q.tail, q.contents, 0)
      && n > 0 && v == q.contents[0]
    case _ => q.head == Slot(q.tail, n, cap) && Holds(q.buf, q.tail, q.contents, 0)
  }

  function OwnerPc(q: Queue): Pc
    requires WellFormed(q)
  {
    match q.k.prims[q.lock].owner
    case None => Out
    case Some(t) => if t < |q.pc| then q.pc[t] else Out
  }

  // ---------- history ----------

  function Values(p: seq<(nat, bool)>): seq<nat> {
    if p == [] then [] else [p[0].0] + Values(p[1..])
  }

  function Read(p: seq<(nat, bool)>): seq<nat> {
    if p == [] then [] else (if p[0].1 then [p[0].0] else []) + Read(p[1..])
  }

  function Skipped(p: seq<(nat, bool)>): nat {
    if p == [] then 0 else (if p[0].1 then 0 else 1) + Skipped(p[1..])
  }

  /** Messages leave the ring in the order they were written; those read are the ones
      received, and the others are one for each send that found no slot. */
  predicate HistoryOk(q: Queue) {
    && q.written == Values(q.popped) + q.contents
    && q.received == Read(q.popped)
    && q.slotless == Skipped(q.popped)
  }

  predicate QInv(q: Queue) {
    && WellFormed(q) && KInv(q.k) && TasksOk(q) && Accounted(q) && RingAt(q, OwnerPc(q)) && HistoryOk(q)
  }

  // ---------- the kernel's side of a step ----------

  /** Everything the proofs below need to know about the kernel step inside a queue step. */
  lemma KernelSide(q: Queue, ev: QEvent)
    requires WellFormed(q) && KInv(q.k) && QEnabled(q, ev)
    ensures var q' := QStep(q, ev); var ke := KEvent(q, ev);
            && WellFormed(q') && KInv(q'.k)
            && |q'.pc| == |q.pc| && |q'.k.prims| == |q.k.prims| && |q'.buf| == |q.buf|
            && q'.lock == q.lock && q'.empty == q.empty && q'.filled == q.filled
            && (forall t :: 0 <= t < |q.pc| ==>
                  View(q'.k.tasks[t]) == if ke.Some? then ViewAfter(q.k, ke.value, t) else View(q.k.tasks[t]))
            && (forall o :: 0 <= o < |q.k.prims| ==>
                  q'.k.prims[o] == if ke.Some? then PrimAfter(q.k, ke.value, o) else q.k.prims[o])
  {
    hide Step, ViewAfter, PrimAfter, KInv, PcAfter;
    var ke := KEvent(q, ev);
    if ke.Some? {
      StepInv(q.k, ke.value);
      ViewFrame(q.k, ke.value);
      PrimFrame(q.k, ke.value);
      StepFrame(q.k, ke.value);
      KInvWF(Step(q.k, ke.value));
    }
  }

  /** The running task is not waiting, and whoever a release chooses was. */
  lemma RunnerAndChosen(k: State, o: PrimId)
    requires KInv(k) && o < |k.prims|
    ensures CanRun(k) ==> k.tasks[k.current.value].wait == None
    ensures Chosen(k, o).Some? ==> k.tasks[Chosen(k, o).value].wait == Some(o)
    ensures k.prims[o].Mutex? ==>
              && (k.prims[o].locked <==> k.prims[o].owner.Some?)
              && (k.prims[o].owner.Some? ==> k.tasks[k.prims[o].owner.value].wait != Some(o))
  {
  }
}
