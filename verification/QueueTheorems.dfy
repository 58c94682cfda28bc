/** The message queue over whole runs: conservation of tokens, the state of the ring,
    and linearizability of the locked sections. */
module QueueTheorems {
  import opened Sequences
  import opened KernelModel
  import opened KernelInvariant
  import opened KernelRuns
  import opened Ring
  import opened QueueProtocol
  import opened QueueInvariant
  import opened QueueSteps

  // ---------- the ring through one step ----------

  predicate SameData(q: Queue, r: Queue) {
    && r.buf == q.buf && r.head == q.head && r.tail == q.tail && r.contents == q.contents
    && r.written == q.written && r.received == q.received && r.popped == q.popped && r.slotless == q.slotless
  }

  /** At `pc` the ring is settled: no half-finished access. */
  predicate Settled(pc: Pc) {
    !pc.SendHead? && !pc.SendTail? && !pc.RecvTail?
  }

  lemma OwnerPlace(q: Queue, t: TaskId)
    requires WellFormed(q) && TasksOk(q) && t < |q.pc|
    ensures Inside(q.pc[t]) ==> OwnerPc(q) == q.pc[t]
    ensures !Settled(OwnerPc(q)) ==> OwnerPc(q) != Out
    ensures OwnsLock(q, t) ==> OwnerPc(q) == q.pc[t] && (Inside(q.pc[t]) || q.pc[t].SendWaitLock? || q.pc[t].RecvWaitLock?)
  {
    assert TaskAt(q, t);
  }

  lemma RingEnv(q: Queue, e: Event)
    requires WellFormed(q) && KInv(q.k) && TasksOk(q) && RingAt(q, OwnerPc(q)) && QEnabled(q, Env(e))
    ensures var r := QStep(q, Env(e)); WellFormed(r) && RingAt(r, OwnerPc(r)) && SameData(q, r)
  {
    hide QStep, KInv, QPossible;
    EnvPc(q, e);
    EnvPrims(q, e);
  }

  /** A step of the current task that neither touches the data nor gives up the lock. */
  lemma RingIdle(q: Queue, ev: QEvent)
    requires WellFormed(q) && TasksOk(q) && RingAt(q, OwnerPc(q)) && QEnabled(q, ev) && !ev.Env?
    requires WellFormed(QStep(q, ev)) && SameData(q, QStep(q, ev)) && |QStep(q, ev).pc| == |q.pc|
    requires var c := q.k.current.value; var r := QStep(q, ev);
             && (r.k.prims[r.lock].owner == q.k.prims[q.lock].owner
                 || (q.k.prims[q.lock].owner == None && r.k.prims[r.lock].owner == Some(c)))
             && Settled(q.pc[c]) && Settled(PcAfter(q, ev))
    ensures RingAt(QStep(q, ev), OwnerPc(QStep(q, ev)))
  {
  }

  lemma RingCall(q: Queue, ev: QEvent)
    requires WellFormed(q) && KInv(q.k) && TasksOk(q) && RingAt(q, OwnerPc(q)) && QEnabled(q, ev)
    requires ev.SendCall? || ev.RecvCall?
    ensures var r := QStep(q, ev); WellFormed(r) && RingAt(r, OwnerPc(r)) && SameData(q, r)
  {
    hide QStep, KInv, Acquire;
    KernelSide(q, ev);
    OwnPc(q, ev);
    OwnData(q, ev);
    assert QStep(q, ev).k.prims[q.lock] == PrimAfter(q.k, KEvent(q, ev).value, q.lock);
    RingIdle(q, ev);
  }

  lemma RingLock(q: Queue)
    requires WellFormed(q) && KInv(q.k) && TasksOk(q) && RingAt(q, OwnerPc(q)) && QEnabled(q, Go)
    requires KEvent(q, Go) == Some(CallAcquire(q.lock, WAIT_FOREVER))
    ensures var r := QStep(q, Go); WellFormed(r) && RingAt(r, OwnerPc(r)) && SameData(q, r)
  {
    hide QStep, KInv, Acquire;
    KernelSide(q, Go);
    OwnPc(q, Go);
    OwnData(q, Go);
    AcquireOutcome(q.k, q.lock, WAIT_FOREVER);
    RunnerAndChosen(q.k, q.lock);
    assert QStep(q, Go).k.prims[q.lock] == PrimAfter(q.k, KEvent(q, Go).value, q.lock);
    RingIdle(q, Go);
  }

  /** Unlocking, or handing the lock to the next waiter, happens only when settled. */
  lemma RingUnlock(q: Queue)
    requires WellFormed(q) && KInv(q.k) && TasksOk(q) && RingAt(q, OwnerPc(q)) && QEnabled(q, Go)
    requires KEvent(q, Go) == Some(CallRelease(q.lock))
    ensures var r := QStep(q, Go); WellFormed(r) && RingAt(r, OwnerPc(r)) && SameData(q, r)
  {
    hide QStep, KInv, Chosen;
    KernelSide(q, Go);
    OwnPc(q, Go);
    OwnData(q, Go);
    RunnerAndChosen(q.k, q.lock);
    OwnerPlace(q, q.k.current.value);
    assert QStep(q, Go).k.prims[q.lock] == PrimAfter(q.k, KEvent(q, Go).value, q.lock);
    if Chosen(q.k, q.lock).Some? {
      assert TaskAt(q, Chosen(q.k, q.lock).value);
    }
  }

  lemma RingPost(q: Queue, o: PrimId)
    requires WellFormed(q) && KInv(q.k) && TasksOk(q) && RingAt(q, OwnerPc(q)) && QEnabled(q, Go)
    requires KEvent(q, Go) == Some(CallRelease(o)) && (o == q.empty || o == q.filled)
    ensures var r := QStep(q, Go); WellFormed(r) && RingAt(r, OwnerPc(r)) && SameData(q, r)
  {
    hide QStep, KInv, Chosen;
    KernelSide(q, Go);
    OwnPc(q, Go);
    OwnData(q, Go);
    assert QStep(q, Go).k.prims[q.lock] == PrimAfter(q.k, KEvent(q, Go).value, q.lock);
    RingIdle(q, Go);
  }

  lemma LocalOwner(q: Queue)
    requires WellFormed(q) && KInv(q.k) && QEnabled(q, Go) && KEvent(q, Go) == None
    ensures var r := QStep(q, Go);
            && WellFormed(r) && |r.pc| == |q.pc| && r.lock == q.lock && |r.buf| == |q.buf|
            && r.k.prims[q.lock].owner == q.k.prims[q.lock].owner
  {
    hide QStep, KInv;
    KernelSide(q, Go);
  }

  /** Inside the locked section the owner moves alone: the next state is the one its
      own step describes. */
  lemma OwnerMoves(q: Queue)
    requires WellFormed(q) && KInv(q.k) && TasksOk(q) && QEnabled(q, Go) && KEvent(q, Go) == None
    requires Inside(q.pc[q.k.current.value])
    ensures var r := QStep(q, Go); var d := DataAfter(q, Go);
            && WellFormed(r) && SameData(d, r)
            && OwnerPc(q) == q.pc[q.k.current.value] && OwnerPc(r) == PcAfter(q, Go)
  {
    hide QStep, KInv, PcAfter, DataAfter;
    LocalOwner(q);
    OwnPc(q, Go);
    OwnData(q, Go);
    OwnerPlace(q, q.k.current.value);
    assert TaskAt(q, q.k.current.value);
  }

  lemma WriteRing(q: Queue, m: nat, had: bool)
    requires WellFormed(q) && RingAt(q, SendWrite(m, had))
    requires |q.contents| <= |q.buf| && (had ==> |q.contents| < |q.buf|)
    ensures RingAt(q.(buf := q.buf[q.head := m]), SendHead(m, had))
  {
    HoldsAfterWrite(q.buf, q.tail, q.contents, if had then 0 else 1, m);
  }

  lemma HeadRing(q: Queue, m: nat, had: bool)
    requires WellFormed(q) && RingAt(q, SendHead(m, had))
    ensures var h := q.(head := Next(q.head, |q.buf|));
            if had then RingAt(h.(contents := q.contents + [m]), SendUnlock(true)) else RingAt(h, SendTail(m))
  {
    SlotNext(q.tail, |q.contents|, |q.buf|);
  }

  lemma TailRing(q: Queue, c: seq<nat>)
    requires WellFormed(q) && c != []
    requires q.head == Slot(q.tail, |c|, |q.buf|) && Holds(q.buf, q.tail, c, 1)
    ensures RingAt(q.(tail := Next(q.tail, |q.buf|), contents := c[1..]), SendUnlock(false))
  {
    HoldsAfterPop(q.buf, q.tail, c);
    SlotNext(q.tail, |c| - 1, |q.buf|);
  }

  lemma FrontOfRing(q: Queue)
    requires WellFormed(q) && RingAt(q, RecvRead) && q.contents != []
    ensures q.buf[q.tail] == q.contents[0]
  {
    ModUnique(q.tail, 0, q.tail, |q.buf|);
  }

  /** A sender that holds a slot never writes over a live message, and a receiver
      that holds a token never finds the ring empty. */
  lemma TokensMeanRoom(q: Queue)
    requires WellFormed(q) && KInv(q.k) && TasksOk(q) && Accounted(q) && CanRun(q.k)
    ensures |q.contents| <= |q.buf|
    ensures var pc := q.pc[q.k.current.value];
            && (pc.SendWrite? && pc.had ==> |q.contents| < |q.buf|)
            && (pc.RecvRead? ==> q.contents != [])
  {
    CarriesToken(q, q.k.current.value);
  }

  lemma RingInside(q: Queue)
    requires WellFormed(q) && KInv(q.k) && TasksOk(q) && Accounted(q) && QEnabled(q, Go)
    requires RingAt(q, OwnerPc(q)) && KEvent(q, Go) == None && Inside(q.pc[q.k.current.value])
    ensures var r := QStep(q, Go); WellFormed(r) && RingAt(r, OwnerPc(r))
  {
    hide QStep, KInv, TaskAt, Accounted;
    OwnerMoves(q);
    TokensMeanRoom(q);
    match q.pc[q.k.current.value]
    case SendWrite(m, had) => WriteRing(q, m, had);
    case SendHead(m, had) => HeadRing(q, m, had);
    case SendTail(m) => TailRing(q, q.contents + [m]);
    case RecvTail(_) => TailRing(q, q.contents);
    case RecvRead => FrontOfRing(q);
  }

  lemma RingLocal(q: Queue)
    requires WellFormed(q) && KInv(q.k) && TasksOk(q) && Accounted(q) && QEnabled(q, Go)
    requires RingAt(q, OwnerPc(q)) && KEvent(q, Go) == None
    ensures var r := QStep(q, Go); WellFormed(r) && RingAt(r, OwnerPc(r))
  {
    hide QStep, KInv, RingAt;
    if Inside(q.pc[q.k.current.value]) {
      RingInside(q);
    } else {
      LocalOwner(q);
      OwnPc(q, Go);
      OwnData(q, Go);
      RingIdle(q, Go);
    }
  }

  lemma RingStep(q: Queue, ev: QEvent)
    requires WellFormed(q) && KInv(q.k) && TasksOk(q) && Accounted(q) && QEnabled(q, ev)
    requires RingAt(q, OwnerPc(q))
    ensures var r := QStep(q, ev); WellFormed(r) && RingAt(r, OwnerPc(r))
    ensures KEvent(q, ev).Some? ==> SameData(q, QStep(q, ev))
  {
    hide QStep, KInv, RingAt, TaskAt, Accounted;
    match ev
    case Env(e) => RingEnv(q, e);
    case SendCall(_, _) => RingCall(q, ev);
    case RecvCall(_) => RingCall(q, ev);
    case Go =>
      match KEvent(q, Go)
      case None => RingLocal(q);
      case Some(ke) =>
        if ke.CallAcquire? { RingLock(q); }
        else if ke.prim == q.lock { RingUnlock(q); }
        else { RingPost(q, ke.prim); }
  }

  // ---------- history ----------

  lemma {:induction false} PoppedAppend(p: seq<(nat, bool)>, v: nat, read: bool)
    ensures Values(p + [(v, read)]) == Values(p) + [v]
    ensures Read(p + [(v, read)]) == Read(p) + (if read then [v] else [])
    ensures Skipped(p + [(v, read)]) == Skipped(p) + (if read then 0 else 1)
  {
    if p == [] {
      assert p + [(v, read)] == [(v, read)];
      assert Values([(v, read)][1..]) == [] && Read([(v, read)][1..]) == [] && Skipped([(v, read)][1..]) == 0;
    } else {
      assert (p + [(v, read)])[1..] == p[1..] + [(v, read)];
      PoppedAppend(p[1..], v, read);
    }
  }

  lemma HistoryData(q: Queue)
    requires WellFormed(q) && QEnabled(q, Go) && HistoryOk(q)
    requires RingAt(q, q.pc[q.k.current.value])
    ensures HistoryOk(DataAfter(q, Go))
  {
    match q.pc[q.k.current.value]
    case SendHead(m, had) =>
      assert Values(q.popped) + q.contents + [m] == Values(q.popped) + (q.contents + [m]);
    case SendTail(m) =>
      var c := q.contents + [m];
      PoppedAppend(q.popped, c[0], false);
      assert Values(q.popped) + q.contents + [m] == Values(q.popped) + [c[0]] + c[1..];
    case RecvTail(v) =>
      PoppedAppend(q.popped, v, true);
      assert Values(q.popped) + q.contents == Values(q.popped) + [v] + q.contents[1..];
    case _ =>
  }

  lemma HistoryStep(q: Queue, ev: QEvent)
    requires QInv(q) && QEnabled(q, ev)
    ensures HistoryOk(QStep(q, ev))
  {
    hide KInv, TaskAt, Accounted, HistoryOk, RingAt, PcAfter, Values, Read, Skipped;
    RingStep(q, ev);
    if KEvent(q, ev).Some? {
      HistorySame(q, QStep(q, ev));
    } else if Inside(q.pc[q.k.current.value]) {
      OwnerMoves(q);
      HistoryData(q);
      HistorySame(DataAfter(q, ev), QStep(q, ev));
    } else {
      HistorySame(q, QStep(q, ev));
    }
  }

  lemma HistorySame(q: Queue, r: Queue)
    requires SameData(q, r) && HistoryOk(q)
    ensures HistoryOk(r)
  {
  }

  // ---------- whole runs ----------

  lemma QInvStep(q: Queue, ev: QEvent)
    requires QInv(q) && QEnabled(q, ev)
    ensures QInv(QStep(q, ev))
  {
    hide QStep, KInv, TaskAt, Accounted, HistoryOk, RingAt, QPossible;
    TasksStep(q, ev);
    AccountedStep(q, ev);
    RingStep(q, ev);
    HistoryStep(q, ev);
  }

  lemma QStartedInv(q: Queue)
    requires QStarted(q)
    ensures QInv(q)
  {
    SumZero(InFlights(q));
    SumZero(Unposteds(q));
    ModUnique(0, 0, 0, |q.buf|);
  }

  lemma {:induction false} QueueRun(q: Queue, evs: seq<QEvent>)
    requires QInv(q) && QLegal(q, evs)
    ensures QInv(QExec(q, evs))
    decreases |evs|
  {
    hide QStep, QInv, QPossible;
    if evs == [] {
    } else {
      QInvStep(q, evs[0]);
      QueueRun(QStep(q, evs[0]), evs[1..]);
    }
  }

  /** Free slots, filled slots and tokens in flight add up to the capacity, the messages
      in the ring are those counted plus those not yet accounted for, and while the lock
      is free the head is as far past the tail as there are messages, which lie in
      between in order. */
  ghost predicate Balanced(r: Queue)
    requires WellFormed(r)
  {
    var cap := |r.buf|;
    var n := |r.contents|;
    && r.k.prims[r.empty].count + r.k.prims[r.filled].count + Sum(InFlights(r)) == cap
    && n == r.k.prims[r.filled].count + Sum(Unposteds(r))
    && n <= cap
    && (r.k.prims[r.lock].owner == None ==>
          && r.head == (r.tail + n) % cap
          && forall i :: 0 <= i < n ==> r.buf[Slot(r.tail, i, cap)] == r.contents[i])
  }

  lemma InvConserves(r: Queue)
    requires WellFormed(r) && Accounted(r) && RingAt(r, OwnerPc(r))
    ensures Balanced(r)
  {
    if r.pc != [] {
      SumBelow(Unposteds(r), InFlights(r), 0);
    } else {
      assert InFlights(r) == [] && Unposteds(r) == [];
    }
  }

  /** This holds for any number of producers and consumers and any interleaving. */
  lemma QueueConservation(q: Queue, evs: seq<QEvent>)
    requires QStarted(q) && QLegal(q, evs)
    ensures Balanced(QExec(q, evs))
  {
    hide Balanced, QLegal, QExec, QStarted, KInv, Accounted, RingAt, HistoryOk, TasksOk;
    QStartedInv(q);
    QueueRun(q, evs);
    InvConserves(QExec(q, evs));
  }

  /** No post ever finds its semaphore saturated, so no token is dropped; the paths
      for a failed lock are never entered. */
  lemma PostsNeverSaturate(q: Queue, evs: seq<QEvent>, o: PrimId)
    requires QStarted(q) && QLegal(q, evs) && QEnabled(QExec(q, evs), Go)
    requires var r := QExec(q, evs); KEvent(r, Go) == Some(CallRelease(o)) && o != r.lock
    ensures var r := QExec(q, evs);
            && (o == r.empty || o == r.filled)
            && r.k.prims[o].count < r.k.prims[o].max == |r.buf|
            && !r.pc[r.k.current.value].SendAbort? && !r.pc[r.k.current.value].RecvAbort?
  {
    QStartedInv(q);
    QueueRun(q, evs);
    var r := QExec(q, evs);
    assert TaskAt(r, r.k.current.value);
    AccountedPost(r, o);
  }

  /** What the current task may count on at its place. */
  predicate SafeAccess(q: Queue)
    requires WellFormed(q) && q.k.current.Some?
  {
    var pc := q.pc[q.k.current.value];
    && !pc.SendAbort? && !pc.RecvAbort?
    && (pc.RecvRead? ==> q.contents != [] && q.buf[q.tail] == q.contents[0])
    && (pc.SendWrite? && pc.had ==>
          forall i :: 0 <= i < |q.contents| ==> Slot(q.tail, i, |q.buf|) != q.head)
  }

  lemma SafeNow(q: Queue)
    requires WellFormed(q) && KInv(q.k) && TasksOk(q) && Accounted(q) && RingAt(q, OwnerPc(q)) && CanRun(q.k)
    ensures SafeAccess(q)
  {
    hide KInv, Accounted;
    var c := q.k.current.value;
    TokensMeanRoom(q);
    OwnerPlace(q, c);
    assert TaskAt(q, c);
    if q.pc[c].RecvRead? {
      FrontOfRing(q);
    }
    if q.pc[c].SendWrite? && q.pc[c].had {
      forall i | 0 <= i < |q.contents|
        ensures Slot(q.tail, i, |q.buf|) != q.head
      {
        SlotsDiffer(q.tail, i, |q.contents|, |q.buf|);
      }
    }
  }

  /** A receiver that reaches the buffer reads the oldest unread message, a sender that
      holds a slot writes where no unread message lies, and no task ever takes the
      path for a lock it could not get. */
  lemma AccessesAreSafe(q: Queue, evs: seq<QEvent>)
    requires QStarted(q) && QLegal(q, evs) && QEnabled(QExec(q, evs), Go)
    ensures SafeAccess(QExec(q, evs))
  {
    hide KInv, QLegal, QExec, Accounted, QStarted, TasksOk, RingAt, HistoryOk, SafeAccess;
    QStartedInv(q);
    QueueRun(q, evs);
    SafeNow(QExec(q, evs));
  }

  // ---------- linearizability ----------

  /** What the step does to the list of unread messages. */
  predicate Linearizes(q: Queue, r: Queue, pc: Pc) {
    match pc
    case SendHead(m, had) =>
      if had then r.contents == q.contents + [m] && r.written == q.written + [m] && r.received == q.received
      else r.contents == q.contents && r.written == q.written && r.received == q.received
    case SendTail(m) =>
      r.contents == (q.contents + [m])[1..] && r.written == q.written + [m] && r.received == q.received
    case RecvTail(v) =>
      q.contents == [v] + r.contents && r.received == q.received + [v] && r.written == q.written
    case _ => r.contents == q.contents && r.written == q.written && r.received == q.received
  }

  lemma LinearizesData(q: Queue)
    requires WellFormed(q) && QEnabled(q, Go) && RingAt(q, q.pc[q.k.current.value])
    ensures Linearizes(q, DataAfter(q, Go), q.pc[q.k.current.value])
  {
  }

  lemma LinearizesSame(q: Queue, d: Queue, r: Queue, pc: Pc)
    requires SameData(d, r)
    ensures Linearizes(q, d, pc) ==> Linearizes(q, r, pc)
  {
  }

  /** The current task's place when it takes a step of its own in the queue's code. */
  function Place(q: Queue, ev: QEvent): Pc
    requires WellFormed(q) && QEnabled(q, ev)
  {
    if ev.Go? && KEvent(q, ev) == None then q.pc[q.k.current.value] else Out
  }

  lemma LinearizesStep(q: Queue, ev: QEvent)
    requires QInv(q) && QEnabled(q, ev)
    ensures Linearizes(q, QStep(q, ev), Place(q, ev))
  {
    hide KInv, TaskAt, Accounted, HistoryOk, RingAt, PcAfter, Linearizes;
    RingStep(q, ev);
    LinearizesNothing(q, Place(q, ev));
    if KEvent(q, ev) == None && Inside(q.pc[q.k.current.value]) {
      OwnerMoves(q);
      LinearizesData(q);
      LinearizesSame(q, DataAfter(q, ev), QStep(q, ev), Place(q, ev));
    } else {
      LinearizesSame(q, q, QStep(q, ev), Place(q, ev));
    }
  }

  lemma LinearizesNothing(q: Queue, pc: Pc)
    ensures !Inside(pc) ==> Linearizes(q, q, pc)
  {
  }

  /** The program's data hold exactly the messages `c`: `head` is |c| slots past `tail`,
      and the slots in between hold them in order. */
  predicate RingHolds(q: Queue, c: seq<nat>)
    requires |q.buf| > 0
  {
    q.head == Slot(q.tail, |c|, |q.buf|) && Holds(q.buf, q.tail, c, 0)
  }

  /** No locked section is between its two halves. */
  predicate AtRest(q: Queue)
    requires WellFormed(q)
  {
    !OwnerPc(q).SendHead? && !OwnerPc(q).SendTail?
  }

  lemma RestingRing(q: Queue)
    requires WellFormed(q) && RingAt(q, OwnerPc(q))
    ensures AtRest(q) ==> RingHolds(q, q.contents)
  {
  }

  /** The queue is linearizable at its locked section.  In every reachable state a send
      with a slot appends its message, a send without one turns the contents `c` into
      `(c + [m])[1..]`, a receive takes the front, and no other step of any task, or of
      the kernel, changes the contents.  Before and after the step, unless a send is
      half-way through its locked section, the contents are what buffer, head and tail
      hold. */
  lemma Linearizable(q: Queue, evs: seq<QEvent>, ev: QEvent)
    requires QStarted(q) && QLegal(q, evs) && QEnabled(QExec(q, evs), ev)
    ensures var r := QExec(q, evs); var r' := QStep(r, ev);
            && Linearizes(r, r', Place(r, ev))
            && (AtRest(r) ==> RingHolds(r, r.contents))
            && WellFormed(r') && (AtRest(r') ==> RingHolds(r', r'.contents))
  {
    hide QLegal, QExec, QStarted, Linearizes, QStep, QPossible, KInv, TasksOk, Accounted, RingAt, HistoryOk;
    QStartedInv(q);
    QueueRun(q, evs);
    var r := QExec(q, evs);
    LinearizesStep(r, ev);
    QInvStep(r, ev);
    RestingRing(r);
    RestingRing(QStep(r, ev));
  }

  /** Every message leaves in the order it was written.  Those that were read are the
      ones received, so what is received is an in-order subsequence of what was sent,
      and exactly one message is skipped for each send that found no slot. */
  lemma InOrderDelivery(q: Queue, evs: seq<QEvent>)
    requires QStarted(q) && QLegal(q, evs)
    ensures var r := QExec(q, evs);
            && r.written == Values(r.popped) + r.contents
            && r.received == Read(r.popped)
            && r.slotless == Skipped(r.popped)
            && |r.written| == |r.received| + r.slotless + |r.contents|
  {
    QStartedInv(q);
    QueueRun(q, evs);
    PoppedCount(QExec(q, evs).popped);
  }

  lemma {:induction false} PoppedCount(p: seq<(nat, bool)>)
    ensures |Values(p)| == |Read(p)| + Skipped(p) == |p|
  {
    if p == [] {
    } else {
      PoppedCount(p[1..]);
    }
  }

  /** The send without a slot is meant to give up the oldest message for the new one.
      It does so exactly when, at its locked section, some message is still unread:
      one the filled count shows, or one posted late or granted to a receiver that has
      not read it.  If the receivers emptied the ring after its failed wait for a
      slot, the message that is skipped is the new one. */
  lemma SlotlessKeepsNewest(q: Queue, evs: seq<QEvent>)
    requires QStarted(q) && QLegal(q, evs) && QEnabled(QExec(q, evs), Go)
    requires var r := QExec(q, evs); r.pc[r.k.current.value].SendTail?
    ensures var r := QExec(q, evs); var m := r.pc[r.k.current.value].m; var c' := QStep(r, Go).contents;
            && (r.k.prims[r.filled].count > 0 || Sum(Unposteds(r)) > 0 <==> Newest(c') == Some(m))
            && (r.contents != [] ==> c' == r.contents[1..] + [m])
            && (r.contents == [] ==> c' == [])
  {
    hide QLegal, QExec, QStarted, QStep, KInv, HistoryOk, TasksOk, RingAt;
    QueueConservation(q, evs);
    Linearizable(q, evs, Go);
    var r := QExec(q, evs);
    SlotlessWindow(r.contents, r.pc[r.k.current.value].m);
  }

  /** A step makes the ring shorter only by a read. */
  lemma OnlyReadsShorten(q: Queue, ev: QEvent)
    requires QInv(q) && QEnabled(q, ev)
    ensures var r := QStep(q, ev); |r.contents| + |r.received| >= |q.contents| + |q.received|
  {
    hide QInv, QStep, QPossible;
    LinearizesStep(q, ev);
  }

  lemma {:induction false} OnlyReadsShortenRun(q: Queue, evs: seq<QEvent>)
    requires QInv(q) && QLegal(q, evs)
    ensures QInv(QExec(q, evs))
    ensures var r := QExec(q, evs); |r.contents| + |r.received| >= |q.contents| + |q.received|
    decreases |evs|
  {
    hide QStep, QInv, QPossible;
    if evs == [] {
    } else {
      OnlyReadsShorten(q, evs[0]);
      QInvStep(q, evs[0]);
      OnlyReadsShortenRun(QStep(q, evs[0]), evs[1..]);
    }
  }

  /** In particular a send without a slot keeps its message as the newest if, between any
      earlier moment, such as the end of its failed wait, and its tail move, fewer reads
      complete than there were unread messages at that moment. */
  lemma FewReadsKeepNewest(q: Queue, before: seq<QEvent>, evs: seq<QEvent>)
    requires QStarted(q) && QLegal(q, before) && QLegal(QExec(q, before), evs)
    requires QEnabled(QExec(QExec(q, before), evs), Go)
    requires var r := QExec(QExec(q, before), evs); r.pc[r.k.current.value].SendTail?
    requires |QExec(QExec(q, before), evs).received| < |QExec(q, before).received| + |QExec(q, before).contents|
    ensures var r := QExec(QExec(q, before), evs);
            Newest(QStep(r, Go).contents) == Some(r.pc[r.k.current.value].m)
  {
    hide QLegal, QExec, QStarted, QStep, KInv, HistoryOk, TasksOk, RingAt, Accounted;
    QStartedInv(q);
    QueueRun(q, before);
    OnlyReadsShortenRun(QExec(q, before), evs);
    var r := QExec(QExec(q, before), evs);
    LinearizesStep(r, Go);
    SlotlessWindow(r.contents, r.pc[r.k.current.value].m);
  }

  lemma SlotlessWindow(c: seq<nat>, m: nat)
    ensures c != [] ==> (c + [m])[1..] == c[1..] + [m] && Newest((c + [m])[1..]) == Some(m)
    ensures c == [] ==> (c + [m])[1..] == [] && Newest([]) == None
  {
  }

  /** The newest unread message. */
  function Newest(c: seq<nat>): Option<nat> {
    if c == [] then None else Some(c[|c| - 1])
  }

  /** os_queue_init before launch puts every run in the theorems' starting state. */
  lemma InitThenLaunch(s: State, lock: PrimId, empty: PrimId, filled: PrimId, buf: seq<nat>)
    requires Booted(s) && s.tasks != [] && buf != []
    requires lock < |s.prims| && empty < |s.prims| && filled < |s.prims|
    requires lock != empty && lock != filled && empty != filled
    requires s.prims[lock] == Mutex(false, None, [])
    requires s.prims[empty] == Semaphore(|buf|, |buf|, [])
    requires s.prims[filled] == Semaphore(0, |buf|, [])
    ensures QStarted(Queue(Launch(s), lock, empty, filled, buf, 0, 0,
                           seq(|s.tasks|, _ => Out), [], [], [], [], 0))
  {
  }
}
