/** The same for callers and for the message queue: with an idle task that never blocks,
    every possible run is one that their theorems are about. */
module IdleCallers {
  import opened KernelModel
  import opened KernelInvariant
  import opened KernelRuns
  import opened Idle
  import opened Protocol
  import QP = QueueProtocol
  import QI = QueueInvariant

  // ---------- callers ----------

  predicate SysIdleNeverBlocks(x: Sys, e: SysEvent, idle: TaskId)
    requires WellSized(x) && SysPossible(x, e)
  {
    e.Kernel? ==> IdleNeverBlocks(x.k, e.e, idle)
  }

  predicate SysIdleRun(x: Sys, evs: seq<SysEvent>, idle: TaskId)
    decreases |evs|
  {
    && WellSized(x)
    && (evs == [] ||
        (&& SysPossible(x, evs[0]) && SysIdleNeverBlocks(x, evs[0], idle)
         && SysIdleRun(SysStep(x, evs[0]), evs[1..], idle)))
  }

  lemma SysAliveStep(x: Sys, e: SysEvent, idle: TaskId)
    requires WellSized(x) && Alive(x.k, idle) && SysPossible(x, e) && SysIdleNeverBlocks(x, e, idle)
    ensures SysEnabled(x, e) && WellSized(SysStep(x, e)) && Alive(SysStep(x, e).k, idle)
  {
    hide SysStep, KInv, Step, IdleReady;
    if e.Kernel? {
      AliveStep(x.k, e.e, idle);
    }
    SysFrame(x, e);
  }

  /** Every possible run of callers is legal: whoever calls, returns from a call or releases
      a mutex is RUNNING. */
  lemma {:induction false} SysIdleRunLegal(x: Sys, evs: seq<SysEvent>, idle: TaskId)
    requires WellSized(x) && Alive(x.k, idle) && SysIdleRun(x, evs, idle)
    ensures SysLegal(x, evs) && Alive(SysExec(x, evs).k, idle)
    decreases |evs|
  {
    hide SysStep, Alive, SysPossible, ByCurrent, SysIdleNeverBlocks;
    if evs == [] {
    } else {
      SysAliveStep(x, evs[0], idle);
      SysIdleRunLegal(SysStep(x, evs[0]), evs[1..], idle);
    }
  }

  // ---------- the message queue ----------

  predicate QIdleNeverBlocks(q: QP.Queue, ev: QP.QEvent, idle: TaskId)
    requires QP.WellFormed(q) && QP.QPossible(q, ev)
  {
    QP.KEvent(q, ev).Some? ==> IdleNeverBlocks(q.k, QP.KEvent(q, ev).value, idle)
  }

  predicate QIdleRun(q: QP.Queue, evs: seq<QP.QEvent>, idle: TaskId)
    decreases |evs|
  {
    && QP.WellFormed(q)
    && (evs == [] ||
        (&& QP.QPossible(q, evs[0]) && QIdleNeverBlocks(q, evs[0], idle)
         && QIdleRun(QP.QStep(q, evs[0]), evs[1..], idle)))
  }

  lemma QAliveStep(q: QP.Queue, ev: QP.QEvent, idle: TaskId)
    requires QP.WellFormed(q) && Alive(q.k, idle) && QP.QPossible(q, ev) && QIdleNeverBlocks(q, ev, idle)
    ensures QP.QEnabled(q, ev) && QP.WellFormed(QP.QStep(q, ev)) && Alive(QP.QStep(q, ev).k, idle)
  {
    hide QP.PcAfter, QP.DataAfter, KInv, Step, IdleReady;
    if ev.Env? {
      AliveEnables(q.k, ev.e, idle);
    }
    QI.KernelSide(q, ev);
    match QP.KEvent(q, ev)
    case Some(ke) => AliveStep(q.k, ke, idle);
    case None =>
  }

  /** Every possible run of producers and consumers is legal. */
  lemma {:induction false} QIdleRunLegal(q: QP.Queue, evs: seq<QP.QEvent>, idle: TaskId)
    requires QP.WellFormed(q) && Alive(q.k, idle) && QIdleRun(q, evs, idle)
    ensures QP.QLegal(q, evs) && Alive(QP.QExec(q, evs).k, idle)
    decreases |evs|
  {
    hide QP.QStep, Alive, QP.QPossible, QIdleNeverBlocks;
    if evs == [] {
    } else {
      QAliveStep(q, evs[0], idle);
      QIdleRunLegal(QP.QStep(q, evs[0]), evs[1..], idle);
    }
  }
}
