/** The message queue as its callers see it: what each task asked for, what was done for it
    and what it was told.  Requests are read off the run's calls alone. */
module QueueCallers {
  import opened KernelModel
  import opened KernelInvariant
  import opened KernelRuns
  import opened Timing
  import opened QueueProtocol
  import opened QueueInvariant
  import opened QueueSteps
  import opened QueueTheorems

  // ---------- what one step asks for and does ----------

  /** The messages that task `t` passes to os_queue_send at this step: one or none. */
  function Asked(q: Queue, ev: QEvent, t: TaskId): seq<nat> {
    if ev.SendCall? && q.k.current == Some(t) then [ev.m] else []
  }

  /** What `b` has beyond `a`. */
  function Beyond(a: seq<nat>, b: seq<nat>): seq<nat> {
    if a <= b then b[|a|..] else b
  }

  /** The messages that task `t` writes at this step. */
  function Wrote(q: Queue, ev: QEvent, t: TaskId): seq<nat>
    requires WellFormed(q) && QPossible(q, ev)
  {
    if q.k.current == Some(t) && !ev.Env? then Beyond(q.written, QStep(q, ev).written) else []
  }

  /** The messages that task `t` takes from the ring at this step. */
  function Took(q: Queue, ev: QEvent, t: TaskId): seq<nat>
    requires WellFormed(q) && QPossible(q, ev)
  {
    if q.k.current == Some(t) && !ev.Env? then Beyond(q.received, QStep(q, ev).received) else []
  }

  /** What a call tells its caller when it returns: a code and, from os_queue_receive with
      OS_SUCCESS, a message. */
  datatype Reply = Sent(code: Code) | Received(code: Code, got: seq<nat>)

  /** The reply with which the current task's call returns at this step, if it does. */
  function ReplyAt(q: Queue, ev: QEvent): Option<Reply>
    requires WellFormed(q) && QPossible(q, ev)
  {
    if ev.Env? || PcAfter(q, ev) != Out then None
    else
      match ev
      case SendCall(_, _) => Some(Sent(Fail))
      case RecvCall(_) => Some(Received(Timeout, []))
      case Go =>
        match q.pc[q.k.current.value]
        case SendUnlock(_) => Some(Sent(Success))
        case SendPost => Some(Sent(Success))
        case RecvWaitItem => Some(Received(Timeout, []))
        case RecvPost(v) => Some(Received(Success, [v]))
        case RecvAbort => Some(Received(Fail, []))
        case _ => Some(Sent(Fail))
  }

  /** The messages handed to task `t` at this step. */
  function Got(q: Queue, ev: QEvent, t: TaskId): seq<nat>
    requires WellFormed(q) && QPossible(q, ev)
  {
    var r := ReplyAt(q, ev);
    if q.k.current == Some(t) && r.Some? && r.value.Received? then r.value.got else []
  }

  /** How many sends, and how many receives, task `t` returns from at this step. */
  function Returned(q: Queue, ev: QEvent, t: TaskId, send: bool): nat
    requires WellFormed(q) && QPossible(q, ev)
  {
    var r := ReplyAt(q, ev);
    if q.k.current == Some(t) && r.Some? && r.value.Sent? == send then 1 else 0
  }

  // ---------- where a call stands ----------

  /** The message of a send that has not written it yet. */
  function Unwritten(pc: Pc): seq<nat> {
    match pc
    case SendWaitSlot(m) => [m]
    case SendWantLock(m, _) => [m]
    case SendWaitLock(m, _) => [m]
    case SendWrite(m, _) => [m]
    case SendHead(m, _) => [m]
    case SendTail(m) => [m]
    case _ => []
  }

  /** The message a receive has taken and not handed over yet. */
  function InHand(pc: Pc): seq<nat> {
    match pc
    case RecvUnlock(v) => [v]
    case RecvPost(v) => [v]
    case _ => []
  }

  predicate InSend(pc: Pc) {
    Unwritten(pc) != [] || pc.SendUnlock? || pc.SendPost?
  }

  predicate InReceive(pc: Pc) {
    pc.RecvWaitItem? || pc.RecvWantLock? || pc.RecvWaitLock? || pc.RecvRead? || pc.RecvTail?
    || pc.RecvUnlock? || pc.RecvPost?
  }

  // ---------- one step ----------

  /** No task is ever on a path for a lock it could not get. */
  lemma AbortFree(q: Queue)
    requires WellFormed(q) && TasksOk(q)
    ensures forall t :: 0 <= t < |q.pc| ==> !q.pc[t].SendAbort? && !q.pc[t].RecvAbort?
  {
    forall t | 0 <= t < |q.pc|
      ensures !q.pc[t].SendAbort? && !q.pc[t].RecvAbort?
    {
      assert TaskAt(q, t);
    }
  }

  lemma NoAborts(q: Queue, ev: QEvent)
    requires QInv(q) && QEnabled(q, ev)
    ensures forall t :: 0 <= t < |q.pc| ==> !q.pc[t].SendAbort? && !q.pc[t].RecvAbort?
    ensures |QStep(q, ev).pc| == |q.pc|
    ensures forall t :: 0 <= t < |q.pc| ==> !QStep(q, ev).pc[t].SendAbort? && !QStep(q, ev).pc[t].RecvAbort?
  {
    hide KInv, Accounted, RingAt, HistoryOk, TasksOk, QStep, QPossible;
    TasksStep(q, ev);
    KernelSide(q, ev);
    AbortFree(q);
    AbortFree(QStep(q, ev));
  }

  lemma StepOfOther(q: Queue, ev: QEvent, t: TaskId)
    requires WellFormed(q) && QEnabled(q, ev) && t < |q.pc| && (q.k.current != Some(t) || ev.Env?)
    ensures |QStep(q, ev).pc| == |q.pc| && QStep(q, ev).pc[t] == q.pc[t]
    ensures Asked(q, ev, t) == Wrote(q, ev, t) == Took(q, ev, t) == Got(q, ev, t) == []
    ensures Returned(q, ev, t, true) == Returned(q, ev, t, false) == 0
  {
    hide Step, PcAfter, DataAfter;
  }

  /** What the current task's step adds to the messages written and taken. */
  lemma OwnAdds(q: Queue, ev: QEvent)
    requires WellFormed(q) && QEnabled(q, ev) && !ev.Env?
    ensures var c := q.k.current.value; var pc := q.pc[c];
            && Wrote(q, ev, c) == (if ev.Go? && ((pc.SendHead? && pc.had) || pc.SendTail?) then [pc.m] else [])
            && Took(q, ev, c) == (if ev.Go? && pc.RecvTail? then [pc.v] else [])
  {
    hide Step, PcAfter, KEvent;
    assert forall a: seq<nat>, x: nat :: Beyond(a, a + [x]) == [x];
  }

  /** And to the queue's history. */
  lemma HistoryGrows(q: Queue, ev: QEvent)
    requires WellFormed(q) && QEnabled(q, ev) && !ev.Env?
    ensures var c := q.k.current.value;
            && QStep(q, ev).written == q.written + Wrote(q, ev, c)
            && QStep(q, ev).received == q.received + Took(q, ev, c)
  {
    hide Step, PcAfter, KEvent;
  }

  /** Where its step leaves it. */
  lemma OwnPlace(q: Queue, ev: QEvent)
    requires QInv(q) && QEnabled(q, ev) && !ev.Env?
    ensures var c := q.k.current.value; var pc := q.pc[c]; var pc' := PcAfter(q, ev);
            && |QStep(q, ev).pc| == |q.pc| && QStep(q, ev).pc[c] == pc'
            && !pc.SendAbort? && !pc.RecvAbort? && !pc'.SendAbort? && !pc'.RecvAbort?
  {
    hide KInv, Accounted, RingAt, HistoryOk, TasksOk, PcAfter, DataAfter, KEvent;
    NoAborts(q, ev);
    OwnPc(q, ev);
  }

  predicate Aborts(pc: Pc, pc': Pc) {
    pc.SendAbort? || pc.RecvAbort? || pc'.SendAbort? || pc'.RecvAbort?
  }

  /** Where a step inside an operation leads, as far as the message sent goes. */
  lemma PlaceInSend(q: Queue)
    requires WellFormed(q) && QEnabled(q, Go)
    ensures var pc := q.pc[q.k.current.value]; var pc' := PcAfter(q, Go);
            Aborts(pc, pc') ||
            Unwritten(pc) == (if (pc.SendHead? && pc.had) || pc.SendTail? then [pc.m] else []) + Unwritten(pc')
  {
    hide KEvent, Acquire, WF;
  }

  /** And the message received. */
  lemma PlaceInReceive(q: Queue)
    requires WellFormed(q) && QEnabled(q, Go)
    ensures var pc := q.pc[q.k.current.value]; var pc' := PcAfter(q, Go);
            Aborts(pc, pc') ||
            InHand(pc) + (if pc.RecvTail? then [pc.v] else []) == Got(q, Go, q.k.current.value) + InHand(pc')
  {
    hide KEvent, Acquire;
  }

  /** And where a call does. */
  lemma PlaceAfterCall(q: Queue, ev: QEvent)
    requires WellFormed(q) && QEnabled(q, ev) && (ev.SendCall? || ev.RecvCall?)
    ensures var c := q.k.current.value; var pc' := PcAfter(q, ev);
            && Unwritten(q.pc[c]) == InHand(q.pc[c]) == InHand(pc') == Got(q, ev, c) == []
            && Unwritten(pc') == Asked(q, ev, c)
  {
    hide KEvent, Acquire;
  }

  lemma OwnStep(q: Queue, ev: QEvent)
    requires QInv(q) && QEnabled(q, ev) && !ev.Env?
    ensures var c := q.k.current.value;
            && Unwritten(q.pc[c]) + Asked(q, ev, c) == Wrote(q, ev, c) + Unwritten(PcAfter(q, ev))
            && InHand(q.pc[c]) + Took(q, ev, c) == Got(q, ev, c) + InHand(PcAfter(q, ev))
  {
    hide KInv, Accounted, RingAt, HistoryOk, TasksOk, QStep, KEvent, PcAfter, Wrote, Took, Got, Unwritten, InHand;
    OwnPlace(q, ev);
    OwnAdds(q, ev);
    if ev.Go? {
      PlaceInSend(q);
      PlaceInReceive(q);
    } else {
      PlaceAfterCall(q, ev);
    }
  }

  /** What a task asked for and has not got written grows by what it asks and shrinks by
      what is written; the same for what it took and was handed. */
  lemma CallerStep(q: Queue, ev: QEvent, t: TaskId)
    requires QInv(q) && QEnabled(q, ev) && t < |q.pc|
    ensures var r := QStep(q, ev);
            && |r.pc| == |q.pc|
            && Unwritten(q.pc[t]) + Asked(q, ev, t) == Wrote(q, ev, t) + Unwritten(r.pc[t])
            && InHand(q.pc[t]) + Took(q, ev, t) == Got(q, ev, t) + InHand(r.pc[t])
  {
    hide QStep, PcAfter, Asked, Wrote, Took, Got, Unwritten, InHand, KInv, Accounted, RingAt, HistoryOk, TasksOk;
    if q.k.current != Some(t) || ev.Env? {
      StepOfOther(q, ev, t);
      assert Unwritten(q.pc[t]) + [] == [] + Unwritten(q.pc[t]);
      assert InHand(q.pc[t]) + [] == [] + InHand(q.pc[t]);
    } else {
      OwnPlace(q, ev);
      OwnStep(q, ev);
    }
  }

  /** Calls and returns alternate, and a return says what happened: a send has succeeded, a
      receive hands over one message or reports OS_TIMEOUT and hands over none. */
  lemma ReplyStep(q: Queue, ev: QEvent, t: TaskId)
    requires QInv(q) && QEnabled(q, ev) && t < |q.pc|
    ensures var r := QStep(q, ev); var mine := q.k.current == Some(t);
            && |r.pc| == |q.pc|
            && One(InSend(q.pc[t])) + One(mine && ev.SendCall?) == Returned(q, ev, t, true) + One(InSend(r.pc[t]))
            && One(InReceive(q.pc[t])) + One(mine && ev.RecvCall?) ==
                 Returned(q, ev, t, false) + One(InReceive(r.pc[t]))
    ensures match ReplyAt(q, ev)
            case None => true
            case Some(Sent(code)) => code == Success
            case Some(Received(code, got)) => (code == Success && |got| == 1) || (code == Timeout && got == [])
  {
    hide KInv, Accounted, RingAt, HistoryOk, TasksOk, QStep, KEvent, Acquire;
    if ev.Env? {
      StepOfOther(q, ev, t);
    } else {
      OwnPlace(q, ev);
      if q.k.current != Some(t) {
        StepOfOther(q, ev, t);
      }
    }
  }

  function One(b: bool): nat {
    if b then 1 else 0
  }

  // ---------- whole runs, task by task ----------

  function AskedBy(q: Queue, evs: seq<QEvent>, t: TaskId): seq<nat>
    requires QLegal(q, evs)
    decreases |evs|
  {
    if evs == [] then [] else Asked(q, evs[0], t) + AskedBy(QStep(q, evs[0]), evs[1..], t)
  }

  function WroteBy(q: Queue, evs: seq<QEvent>, t: TaskId): seq<nat>
    requires QLegal(q, evs)
    decreases |evs|
  {
    if evs == [] then [] else Wrote(q, evs[0], t) + WroteBy(QStep(q, evs[0]), evs[1..], t)
  }

  function TookBy(q: Queue, evs: seq<QEvent>, t: TaskId): seq<nat>
    requires QLegal(q, evs)
    decreases |evs|
  {
    if evs == [] then [] else Took(q, evs[0], t) + TookBy(QStep(q, evs[0]), evs[1..], t)
  }

  function GotBy(q: Queue, evs: seq<QEvent>, t: TaskId): seq<nat>
    requires QLegal(q, evs)
    decreases |evs|
  {
    if evs == [] then [] else Got(q, evs[0], t) + GotBy(QStep(q, evs[0]), evs[1..], t)
  }

  /** One more step at the front of such an account. */
  lemma Balance(before: seq<nat>, ask: seq<nat>, did: seq<nat>, mid: seq<nat>, asks: seq<nat>, dos: seq<nat>, after: seq<nat>)
    requires before + ask == did + mid && mid + asks == dos + after
    ensures before + (ask + asks) == (did + dos) + after
  {
    calc {
      before + (ask + asks);
      (before + ask) + asks;
      did + (mid + asks);
      (did + dos) + after;
    }
  }

  /** Whatever else runs: the messages a task passes to os_queue_send are written, each
      exactly once and in that order, all but the one of a send not yet past its locked
      section; and what it takes from the ring is handed to it in that order, all but the
      one of a receive that has not returned. */
  lemma {:induction false} CallerRun(q: Queue, evs: seq<QEvent>, t: TaskId)
    requires QInv(q) && QLegal(q, evs) && t < |q.pc|
    ensures var r := QExec(q, evs);
            && |r.pc| == |q.pc|
            && Unwritten(q.pc[t]) + AskedBy(q, evs, t) == WroteBy(q, evs, t) + Unwritten(r.pc[t])
            && InHand(q.pc[t]) + TookBy(q, evs, t) == GotBy(q, evs, t) + InHand(r.pc[t])
    decreases |evs|
  {
    hide QInv, QStep, QPossible, Unwritten, InHand, Asked, Wrote, Took, Got;
    if evs == [] {
    } else {
      var q' := QStep(q, evs[0]);
      CallerStep(q, evs[0], t);
      QInvStep(q, evs[0]);
      CallerRun(q', evs[1..], t);
      var r := QExec(q', evs[1..]);
      Balance(Unwritten(q.pc[t]), Asked(q, evs[0], t), Wrote(q, evs[0], t), Unwritten(q'.pc[t]),
              AskedBy(q', evs[1..], t), WroteBy(q', evs[1..], t), Unwritten(r.pc[t]));
      Balance(InHand(q.pc[t]), Took(q, evs[0], t), Got(q, evs[0], t), InHand(q'.pc[t]),
              TookBy(q', evs[1..], t), GotBy(q', evs[1..], t), InHand(r.pc[t]));
    }
  }

  /** From the start of the queue. */
  lemma SendsAreWritten(q: Queue, evs: seq<QEvent>, t: TaskId)
    requires QStarted(q) && QLegal(q, evs) && t < |q.pc|
    ensures var r := QExec(q, evs);
            && |r.pc| == |q.pc|
            && AskedBy(q, evs, t) == WroteBy(q, evs, t) + Unwritten(r.pc[t])
            && TookBy(q, evs, t) == GotBy(q, evs, t) + InHand(r.pc[t])
  {
    hide QInv, QLegal, QExec, KInv, AskedBy, WroteBy, TookBy, GotBy;
    QStartedInv(q);
    CallerRun(q, evs, t);
    assert Unwritten(q.pc[t]) == InHand(q.pc[t]) == [];
    assert [] + AskedBy(q, evs, t) == AskedBy(q, evs, t);
    assert [] + TookBy(q, evs, t) == TookBy(q, evs, t);
  }

  /** A single send: from the call on, until the task calls send again, it writes the message
      of that call and no other, and has done so by the time the call has returned. */
  lemma OneSend(q: Queue, m: nat, timeout: nat, evs: seq<QEvent>)
    requires QInv(q) && QLegal(q, [SendCall(m, timeout)] + evs)
    requires AskedBy(QStep(q, SendCall(m, timeout)), evs, q.k.current.value) == []
    ensures var t := q.k.current.value; var r := QExec(q, [SendCall(m, timeout)] + evs);
            && t < |r.pc|
            && WroteBy(QStep(q, SendCall(m, timeout)), evs, t) == (if Unwritten(r.pc[t]) == [] then [m] else [])
            && (!InSend(r.pc[t]) ==> WroteBy(QStep(q, SendCall(m, timeout)), evs, t) == [m])
  {
    var ev := SendCall(m, timeout);
    var t := q.k.current.value;
    FirstStep(q, ev, evs);
    AfterSendCall(q, m, timeout);
    hide QInv, QLegal, QExec, QStep, KInv, AskedBy, WroteBy;
    CallerRun(QStep(q, ev), evs, t);
    var r := QExec(QStep(q, ev), evs);
    assert [m] + [] == [m];
    OneOrNone(WroteBy(QStep(q, ev), evs, t), Unwritten(r.pc[t]), m);
  }

  /** After its call the sender stands with its message. */
  lemma AfterSendCall(q: Queue, m: nat, timeout: nat)
    requires QInv(q) && QEnabled(q, SendCall(m, timeout))
    ensures var r := QStep(q, SendCall(m, timeout)); var t := q.k.current.value;
            QInv(r) && t < |q.pc| == |r.pc| && Unwritten(r.pc[t]) == [m]
  {
    var ev := SendCall(m, timeout);
    var t := q.k.current.value;
    QInvStep(q, ev);
    OwnAdds(q, ev);
    CallerStep(q, ev, t);
    hide KInv, Accounted, RingAt, HistoryOk, TasksOk, QStep, PcAfter, Wrote;
    assert Unwritten(q.pc[t]) + [m] == [m];
    assert [] + Unwritten(QStep(q, ev).pc[t]) == Unwritten(QStep(q, ev).pc[t]);
  }

  lemma OneOrNone(a: seq<nat>, b: seq<nat>, m: nat)
    requires a + b == [m]
    ensures a == if b == [] then [m] else []
  {
    assert |a| + |b| == 1;
    if b == [] {
      assert a + b == a;
    }
  }

  lemma FirstStep(q: Queue, ev: QEvent, evs: seq<QEvent>)
    requires QLegal(q, [ev] + evs)
    ensures WellFormed(q) && QEnabled(q, ev) && QLegal(QStep(q, ev), evs)
    ensures QExec(q, [ev] + evs) == QExec(QStep(q, ev), evs)
  {
    assert ([ev] + evs)[0] == ev && ([ev] + evs)[1..] == evs;
  }

  /** How many sends, or receives, task `t` calls during the run, and returns from. */
  function CallsBy(q: Queue, evs: seq<QEvent>, t: TaskId, send: bool): nat
    requires QLegal(q, evs)
    decreases |evs|
  {
    if evs == [] then 0
    else
      One(q.k.current == Some(t) && (if send then evs[0].SendCall? else evs[0].RecvCall?))
      + CallsBy(QStep(q, evs[0]), evs[1..], t, send)
  }

  function ReturnsBy(q: Queue, evs: seq<QEvent>, t: TaskId, send: bool): nat
    requires QLegal(q, evs)
    decreases |evs|
  {
    if evs == [] then 0 else Returned(q, evs[0], t, send) + ReturnsBy(QStep(q, evs[0]), evs[1..], t, send)
  }

  /** Every call returns once, but for one that is still under way. */
  lemma {:induction false} CallsReturn(q: Queue, evs: seq<QEvent>, t: TaskId)
    requires QInv(q) && QLegal(q, evs) && t < |q.pc|
    ensures var r := QExec(q, evs);
            && |r.pc| == |q.pc|
            && One(InSend(q.pc[t])) + CallsBy(q, evs, t, true) == ReturnsBy(q, evs, t, true) + One(InSend(r.pc[t]))
            && One(InReceive(q.pc[t])) + CallsBy(q, evs, t, false) ==
                 ReturnsBy(q, evs, t, false) + One(InReceive(r.pc[t]))
    decreases |evs|
  {
    hide QInv, QStep, QPossible, InSend, InReceive, Returned;
    if evs == [] {
    } else {
      ReplyStep(q, evs[0], t);
      QInvStep(q, evs[0]);
      CallsReturn(QStep(q, evs[0]), evs[1..], t);
    }
  }

  /** What a call is told, in any reachable state. */
  lemma RepliesAreHonest(q: Queue, evs: seq<QEvent>, ev: QEvent)
    requires QStarted(q) && QLegal(q, evs) && QEnabled(QExec(q, evs), ev)
    ensures match ReplyAt(QExec(q, evs), ev)
            case None => true
            case Some(Sent(code)) => code == Success
            case Some(Received(code, got)) => (code == Success && |got| == 1) || (code == Timeout && got == [])
  {
    hide QInv, QLegal, QExec, QStarted, QPossible, ReplyAt;
    QStartedInv(q);
    QueueRun(q, evs);
    SomeTask(q, evs);
    ReplyStep(QExec(q, evs), ev, 0);
  }

  lemma SomeTask(q: Queue, evs: seq<QEvent>)
    requires QInv(q) && QLegal(q, evs)
    ensures QExec(q, evs).pc != []
  {
    KInvWF(q.k);
    CallsReturn(q, evs, 0);
  }

  // ---------- how long a call waits ----------

  /** A send takes a free slot at once.  Otherwise it goes on without one if it polls, and
      waits for one exactly as long as it was asked to. */
  lemma SendCallWaits(q: Queue, m: nat, timeout: nat)
    requires QInv(q) && QEnabled(q, SendCall(m, timeout))
    ensures var r := QStep(q, SendCall(m, timeout)); var c := q.k.current.value; var free := q.k.prims[q.empty].count;
            && c < |q.pc| == |r.pc| == |r.k.tasks|
            && (free > 0 ==> r.pc[c] == SendWantLock(m, true))
            && (free == 0 && timeout == 0 ==> r.pc[c] == SendWantLock(m, false) && r.k == q.k)
            && (free == 0 && timeout > 0 ==>
                  && r.pc[c] == SendWaitSlot(m)
                  && Waiting(r.k, c, q.empty, if timeout == 0xFFFF_FFFF then 0 else timeout))
  {
    hide Acquire, KInv, TaskAt, Accounted, RingAt, HistoryOk;
    KInvWF(q.k);
    AcquireOutcome(q.k, q.empty, timeout);
    AcquireShape(q.k, q.empty, timeout);
  }

  /** A receive likewise takes a filled slot, gives up at once or waits as long as asked. */
  lemma ReceiveCallWaits(q: Queue, timeout: nat)
    requires QInv(q) && QEnabled(q, RecvCall(timeout))
    ensures var r := QStep(q, RecvCall(timeout)); var c := q.k.current.value; var filled := q.k.prims[q.filled].count;
            && c < |q.pc| == |r.pc| == |r.k.tasks|
            && (filled > 0 ==> r.pc[c] == RecvWantLock)
            && (filled == 0 && timeout == 0 ==>
                  r.pc[c] == Out && r.k == q.k && ReplyAt(q, RecvCall(timeout)) == Some(Received(Timeout, [])))
            && (filled == 0 && timeout > 0 ==>
                  && r.pc[c] == RecvWaitItem
                  && Waiting(r.k, c, q.filled, if timeout == 0xFFFF_FFFF then 0 else timeout))
  {
    hide Acquire, KInv, TaskAt, Accounted, RingAt, HistoryOk;
    KInvWF(q.k);
    AcquireOutcome(q.k, q.filled, timeout);
    AcquireShape(q.k, q.filled, timeout);
  }

  // ---------- whole runs, all tasks together ----------

  /** The messages of the run's sends. */
  function Sends(evs: seq<QEvent>): seq<nat> {
    if evs == [] then [] else (if evs[0].SendCall? then [evs[0].m] else []) + Sends(evs[1..])
  }

  function Bag(pcs: seq<Pc>): multiset<nat> {
    if pcs == [] then multiset{} else multiset(Unwritten(pcs[0])) + Bag(pcs[1..])
  }

  lemma Shift(first: multiset<nat>, a: multiset<nat>, x: multiset<nat>, b: multiset<nat>, y: multiset<nat>)
    requires a + x == b + y
    ensures first + a + x == first + b + y
  {
    forall n: nat
      ensures (first + a + x)[n] == (first + b + y)[n]
    {
      assert (a + x)[n] == (b + y)[n];
    }
  }

  lemma {:induction false} BagUpdate(pcs: seq<Pc>, c: nat, pc: Pc)
    requires c < |pcs|
    ensures Bag(pcs[c := pc]) + multiset(Unwritten(pcs[c])) == Bag(pcs) + multiset(Unwritten(pc))
  {
    hide Unwritten;
    if c == 0 {
      assert pcs[0 := pc][1..] == pcs[1..] && pcs[0 := pc][0] == pc;
    } else {
      var pcs' := pcs[c := pc];
      assert pcs'[1..] == pcs[1..][c - 1 := pc] && pcs'[0] == pcs[0];
      BagUpdate(pcs[1..], c - 1, pc);
      Shift(multiset(Unwritten(pcs[0])), Bag(pcs'[1..]), multiset(Unwritten(pcs[c])), Bag(pcs[1..]), multiset(Unwritten(pc)));
    }
  }

  lemma {:induction false} BagEmpty(pcs: seq<Pc>)
    requires forall t :: 0 <= t < |pcs| ==> pcs[t] == Out
    ensures Bag(pcs) == multiset{}
  {
    if pcs == [] {
    } else {
      BagEmpty(pcs[1..]);
    }
  }

  lemma Merge(written: seq<nat>, wrote: seq<nat>, before: seq<nat>, ask: seq<nat>, after: seq<nat>)
    requires before + ask == wrote + after
    ensures multiset(before) + multiset(ask) == multiset(wrote) + multiset(after)
    ensures multiset(written + wrote) == multiset(written) + multiset(wrote)
  {
    assert multiset(before + ask) == multiset(wrote + after);
  }

  lemma Cancel(w: multiset<nat>, wrote: multiset<nat>, before: multiset<nat>, after: multiset<nat>,
               ask: multiset<nat>, bag': multiset<nat>, bag: multiset<nat>)
    requires before + ask == wrote + after && bag' + before == bag + after
    ensures w + wrote + bag' == w + bag + ask
  {
    forall x: nat
      ensures (w + wrote + bag')[x] == (w + bag + ask)[x]
    {
      assert (before + ask)[x] == (wrote + after)[x] && (bag' + before)[x] == (bag + after)[x];
    }
  }

  lemma BagStep(q: Queue, ev: QEvent)
    requires QInv(q) && QEnabled(q, ev)
    ensures var r := QStep(q, ev);
            multiset(r.written) + Bag(r.pc) ==
            multiset(q.written) + Bag(q.pc) + multiset(if ev.SendCall? then [ev.m] else [])
  {
    hide KInv, Accounted, RingAt, HistoryOk, TasksOk, PcAfter, KEvent, Wrote, Took, Bag, Unwritten;
    if ev.Env? {
      assert QStep(q, ev).pc == q.pc && QStep(q, ev).written == q.written;
    } else {
      var c := q.k.current.value;
      CallerStep(q, ev, c);
      HistoryGrows(q, ev);
      OwnPc(q, ev);
      BagUpdate(q.pc, c, PcAfter(q, ev));
      var a := multiset(Unwritten(q.pc[c]));
      var b := multiset(Unwritten(PcAfter(q, ev)));
      Merge(q.written, Wrote(q, ev, c), Unwritten(q.pc[c]), Asked(q, ev, c), Unwritten(PcAfter(q, ev)));
      Cancel(multiset(q.written), multiset(Wrote(q, ev, c)), a, b, multiset(Asked(q, ev, c)),
             Bag(QStep(q, ev).pc), Bag(q.pc));
    }
  }

  lemma {:induction false} BagRun(q: Queue, evs: seq<QEvent>)
    requires QInv(q) && QLegal(q, evs)
    ensures var r := QExec(q, evs);
            multiset(r.written) + Bag(r.pc) == multiset(q.written) + Bag(q.pc) + multiset(Sends(evs))
    decreases |evs|
  {
    hide QInv, QStep, QPossible, Bag;
    if evs == [] {
    } else {
      BagStep(q, evs[0]);
      QInvStep(q, evs[0]);
      BagRun(QStep(q, evs[0]), evs[1..]);
    }
  }

  /** In every reachable state the messages written and those of sends not yet past their
      locked section are together exactly the messages of all calls made. */
  lemma EverySendIsWritten(q: Queue, evs: seq<QEvent>)
    requires QStarted(q) && QLegal(q, evs)
    ensures var r := QExec(q, evs); multiset(r.written) + Bag(r.pc) == multiset(Sends(evs))
  {
    QStartedInv(q);
    BagRun(q, evs);
    BagEmpty(q.pc);
  }
}
