/** Bounded bypass: how many releases of a mutex or semaphore can pass a waiter over. */
module Bypass {
  import opened Sequences
  import opened KernelModel
  import opened KernelInvariant
  import opened TickRefinement
  import opened KernelRuns
  import opened Timing
  import opened Priority

  predicate AllTasks(tasks: seq<Tcb>, q: seq<TaskId>) {
    forall i :: 0 <= i < |q| ==> q[i] < |tasks|
  }

  /** How many waiters in `q` rank strictly above priority `p`. */
  function Higher(tasks: seq<Tcb>, q: seq<TaskId>, p: nat): nat
    requires AllTasks(tasks, q)
  {
    if q == [] then 0
    else (if tasks[q[0]].priority > p then 1 else 0) + Higher(tasks, q[1..], p)
  }

  /** How many waiters are served before `w`: those of higher priority, and those of
      equal priority that came earlier. */
  function Ahead(tasks: seq<Tcb>, q: seq<TaskId>, w: TaskId): nat
    requires w < |tasks|
    requires AllTasks(tasks, q)
  {
    if q == [] then 0
    else if q[0] == w then Higher(tasks, q[1..], tasks[w].priority)
    else (if tasks[q[0]].priority >= tasks[w].priority then 1 else 0) + Ahead(tasks, q[1..], w)
  }

  lemma WithoutTail(q: seq<TaskId>, k: nat)
    requires NoDup(q) && 0 < k < |q|
    ensures q[1..][k - 1] == q[k] && NoDup(q[1..])
    ensures Without(q, q[k]) == [q[0]] + Without(q[1..], q[k])
  {
  }

  lemma WithoutTasks(tasks: seq<Tcb>, q: seq<TaskId>, x: TaskId)
    requires NoDup(q) && AllTasks(tasks, q)
    ensures AllTasks(tasks, Without(q, x))
  {
  }

  lemma BestAtShift(tasks: seq<Tcb>, q: seq<TaskId>, k: nat)
    requires 0 < k && BestAt(tasks, q, k)
    ensures BestAt(tasks, q[1..], k - 1)
  {
  }

  lemma BestAtTail(tasks: seq<Tcb>, q: seq<TaskId>, k: nat)
    requires NoDup(q) && BestAt(tasks, q, k)
    ensures AllTasks(tasks, q) && AllTasks(tasks, Without(q, q[k]))
    ensures k > 0 ==> && BestAt(tasks, q[1..], k - 1) && q[1..][k - 1] == q[k] && NoDup(q[1..])
                      && Without(q, q[k]) == [q[0]] + Without(q[1..], q[k])
  {
    WithoutTasks(tasks, q, q[k]);
    if k > 0 {
      hide NoDup, AllTasks, Without;
      WithoutTail(q, k);
      BestAtShift(tasks, q, k);
    }
  }

  lemma {:induction false} HigherAfterPick(tasks: seq<Tcb>, q: seq<TaskId>, p: nat, k: nat)
    requires NoDup(q) && BestAt(tasks, q, k) && tasks[q[k]].priority > p
    ensures AllTasks(tasks, Without(q, q[k]))
    ensures Higher(tasks, Without(q, q[k]), p) + 1 == Higher(tasks, q, p)
  {
    BestAtTail(tasks, q, k);
    if k == 0 {
    } else {
      HigherAfterPick(tasks, q[1..], p, k - 1);
    }
  }

  lemma AheadHead(tasks: seq<Tcb>, q: seq<TaskId>, x: TaskId, rest: seq<TaskId>, w: TaskId)
    requires q != [] && q[0] == x && q[1..] == rest && AllTasks(tasks, q) && w < |tasks|
    ensures AllTasks(tasks, rest)
    ensures Ahead(tasks, q, w) ==
            if x == w then Higher(tasks, rest, tasks[w].priority)
            else (if tasks[x].priority >= tasks[w].priority then 1 else 0) + Ahead(tasks, rest, w)
  {
  }

  /** The release that passes `w` over takes one of those ahead of it. */
  lemma {:induction false} AheadAfterPick(tasks: seq<Tcb>, q: seq<TaskId>, w: TaskId, k: nat)
    requires NoDup(q) && BestAt(tasks, q, k) && w in q && q[k] != w
    ensures AllTasks(tasks, Without(q, q[k])) && w < |tasks|
    ensures Ahead(tasks, Without(q, q[k]), w) + 1 == Ahead(tasks, q, w)
  {
    BestAtTail(tasks, q, k);
    if k == 0 {
      hide NoDup, Higher;
    } else {
      hide Without, Higher, Ahead, NoDup;
      var rest := Without(q[1..], q[k]);
      AheadHead(tasks, q, q[0], q[1..], w);
      AheadHead(tasks, [q[0]] + rest, q[0], rest, w);
      if q[0] == w {
        HigherAfterPick(tasks, q[1..], tasks[w].priority, k - 1);
      } else {
        AheadAfterPick(tasks, q[1..], w, k - 1);
      }
    }
  }

  lemma {:induction false} HigherDrop(tasks: seq<Tcb>, q: seq<TaskId>, p: nat, gone: set<TaskId>)
    requires AllTasks(tasks, q)
    ensures var r := Drop(q, gone);
            && AllTasks(tasks, r) && (forall i :: 0 <= i < |r| ==> r[i] in q)
            && Higher(tasks, r, p) <= Higher(tasks, q, p)
  {
    if q == [] {
    } else {
      HigherDrop(tasks, q[1..], p, gone);
    }
  }

  /** Timeouts never move `w` back, even out of the middle of the queue. */
  lemma {:induction false} AheadDrop(tasks: seq<Tcb>, q: seq<TaskId>, w: TaskId, gone: set<TaskId>)
    requires AllTasks(tasks, q)
    requires w < |tasks| && w !in gone
    ensures var r := Drop(q, gone);
            && AllTasks(tasks, r) && (forall i :: 0 <= i < |r| ==> r[i] in q)
            && Ahead(tasks, r, w) <= Ahead(tasks, q, w)
  {
    if q == [] {
    } else {
      AheadDrop(tasks, q[1..], w, gone);
      HigherDrop(tasks, q[1..], tasks[w].priority, gone);
    }
  }

  lemma {:induction false} HigherAppend(tasks: seq<Tcb>, q: seq<TaskId>, p: nat, x: TaskId)
    requires AllTasks(tasks, q)
    requires x < |tasks| && tasks[x].priority <= p
    ensures Higher(tasks, q + [x], p) == Higher(tasks, q, p)
  {
    if q == [] {
    } else {
      assert (q + [x])[1..] == q[1..] + [x];
      HigherAppend(tasks, q[1..], p, x);
    }
  }

  /** Nor does an arrival that does not outrank it. */
  lemma {:induction false} AheadAppend(tasks: seq<Tcb>, q: seq<TaskId>, w: TaskId, x: TaskId)
    requires AllTasks(tasks, q)
    requires w in q && w < |tasks| && x < |tasks| && tasks[x].priority <= tasks[w].priority
    ensures Ahead(tasks, q + [x], w) == Ahead(tasks, q, w)
  {
    assert (q + [x])[1..] == q[1..] + [x];
    if q[0] == w {
      HigherAppend(tasks, q[1..], tasks[w].priority, x);
    } else {
      AheadAppend(tasks, q[1..], w, x);
    }
  }

  lemma {:induction false} HigherSame(tasks: seq<Tcb>, tasks': seq<Tcb>, q: seq<TaskId>, p: nat)
    requires |tasks| == |tasks'|
    requires AllTasks(tasks, q) && forall i :: 0 <= i < |q| ==> tasks[q[i]].priority == tasks'[q[i]].priority
    ensures Higher(tasks, q, p) == Higher(tasks', q, p)
  {
    if q == [] {
    } else {
      HigherSame(tasks, tasks', q[1..], p);
    }
  }

  lemma {:induction false} AheadSame(tasks: seq<Tcb>, tasks': seq<Tcb>, q: seq<TaskId>, w: TaskId)
    requires |tasks| == |tasks'| && w < |tasks| && tasks[w].priority == tasks'[w].priority
    requires AllTasks(tasks, q) && forall i :: 0 <= i < |q| ==> tasks[q[i]].priority == tasks'[q[i]].priority
    ensures Ahead(tasks, q, w) == Ahead(tasks', q, w)
  {
    if q == [] {
    } else {
      HigherSame(tasks, tasks', q[1..], tasks[w].priority);
      AheadSame(tasks, tasks', q[1..], w);
    }
  }

  /** A release, seen by its effect on the queue and on priorities. */
  lemma PassedOver(tasks: seq<Tcb>, tasks': seq<Tcb>, q: seq<TaskId>, w: TaskId, k: nat)
    requires NoDup(q) && BestAt(tasks, q, k) && w in q && q[k] != w && |tasks'| == |tasks|
    requires forall x :: x in q ==> x < |tasks| && tasks'[x].priority == tasks[x].priority
    ensures AllTasks(tasks', Without(q, q[k])) && w < |tasks|
    ensures Ahead(tasks', Without(q, q[k]), w) + 1 == Ahead(tasks, q, w)
  {
    AheadAfterPick(tasks, q, w, k);
    WithoutSubset(q, q[k]);
    assert forall i :: 0 <= i < |Without(q, q[k])| ==> Without(q, q[k])[i] in q;
    AheadSame(tasks, tasks', Without(q, q[k]), w);
  }

  /** A tick likewise. */
  lemma Overtaken(tasks: seq<Tcb>, tasks': seq<Tcb>, q: seq<TaskId>, w: TaskId, gone: set<TaskId>)
    requires w in q && w !in gone && |tasks'| == |tasks|
    requires forall x :: x in q ==> x < |tasks| && tasks'[x].priority == tasks[x].priority
    ensures AllTasks(tasks, q) && AllTasks(tasks', Drop(q, gone)) && w < |tasks|
    ensures Ahead(tasks', Drop(q, gone), w) <= Ahead(tasks, q, w)
  {
    assert forall i :: 0 <= i < |q| ==> q[i] in q;
    assert forall i :: 0 <= i < |Drop(q, gone)| ==> Drop(q, gone)[i] in q;
    AheadDrop(tasks, q, w, gone);
    AheadSame(tasks, tasks', Drop(q, gone), w);
  }

  // ---------- over a run ----------

  predicate Waits(s: State, t: TaskId, o: PrimId) {
    o < |s.prims| && t in s.prims[o].waiters
  }

  predicate Queued(s: State, o: PrimId, w: TaskId) {
    Waits(s, w, o) && w < |s.tasks|
  }

  /** The step neither grants `w` what it waits for nor exhausts its time. */
  predicate Survives(s: State, e: Event, w: TaskId)
    requires WF(s) && Enabled(s, e) && w < |s.tasks|
  {
    Granted(s, e) != Some(w) && !(e.OnTick? && s.tasks[w].sleep == 1)
  }

  /** The time a surviving waiter has left. */
  function TimeLeft(s: State, e: Event, w: TaskId): nat
    requires w < |s.tasks|
  {
    var k := s.tasks[w].sleep;
    if e.OnTick? && k > 0 then k - 1 else k
  }

  function AheadOf(s: State, o: PrimId, w: TaskId): nat
    requires KInv(s) && Queued(s, o, w)
  {
    assert PrimOk(s.prims[o], |s.tasks|, s.launched);
    assert forall i :: 0 <= i < |s.prims[o].waiters| ==> s.prims[o].waiters[i] in s.prims[o].waiters;
    Ahead(s.tasks, s.prims[o].waiters, w)
  }

  /** No task waits for `o` while it owns a mutex, so nobody lends to a waiter. */
  ghost predicate Unlent(s: State, o: PrimId) {
    forall t, p :: Waits(s, t, o) ==> !Owns(s, t, p)
  }

  /** A task that joins the queue of `o` owns no other mutex. */
  predicate JoinsUnlent(s: State, e: Event, o: PrimId)
    requires WF(s) && Enabled(s, e)
  {
    e.CallAcquire? && e.prim == o ==>
      forall p :: 0 <= p < |s.prims| && p != o ==> !Owns(s, s.current.value, p)
  }

  /** Nor does it outrank `w`. */
  predicate NoOutranking(s: State, e: Event, o: PrimId, w: TaskId)
    requires WF(s) && Enabled(s, e)
  {
    e.CallAcquire? && e.prim == o && w < |s.tasks| ==>
      s.tasks[s.current.value].priority <= s.tasks[w].priority
  }

  lemma QueueTasks(s: State, o: PrimId)
    requires KInv(s) && o < |s.prims|
    ensures WF(s) && NoDup(s.prims[o].waiters)
    ensures forall x :: x in s.prims[o].waiters ==> x < |s.tasks| && s.tasks[x].wait == Some(o)
    ensures CanRun(s) ==> s.current.value !in s.prims[o].waiters
    ensures s.prims[o].Mutex? && !s.prims[o].locked ==> s.prims[o].owner == None && s.prims[o].waiters == []
  {
  }

  /** Whoever a step makes the owner of a mutex is not waiting for anything afterwards. */
  lemma NewOwners(s: State, e: Event, p: PrimId, t: TaskId)
    requires KInv(s) && Enabled(s, e) && Owns(Step(s, e), t, p)
    ensures Owns(s, t, p) || forall o :: !Waits(Step(s, e), t, o)
  {
    hide Step, Acquire, Chosen;
    PrimFrame(s, e);
    assert Step(s, e).prims[p] == PrimAfter(s, e, p);
    forall o: PrimId | Waits(Step(s, e), t, o)
      ensures Owns(s, t, p)
    {
      assert Step(s, e).prims[o] == PrimAfter(s, e, o);
      QueueTasks(s, o);
      QueueTasks(s, p);
      if e.CallRelease? && e.prim == p && Chosen(s, p).Some? {
        WithoutMembers(s.prims[p].waiters, Chosen(s, p).value);
      }
    }
  }

  /** Whoever a step puts in the queue of `o` owns no mutex. */
  lemma NewWaiters(s: State, e: Event, o: PrimId, t: TaskId)
    requires KInv(s) && Enabled(s, e) && JoinsUnlent(s, e, o) && Waits(Step(s, e), t, o)
    ensures Waits(s, t, o) || forall p :: !Owns(s, t, p)
  {
    hide Step, Acquire, Chosen;
    PrimFrame(s, e);
    assert Step(s, e).prims[o] == PrimAfter(s, e, o);
    QueueTasks(s, o);
    if e.CallRelease? && e.prim == o && Chosen(s, o).Some? {
      WithoutMembers(s.prims[o].waiters, Chosen(s, o).value);
    }
    if e.CallAcquire? && e.prim == o {
      AcquireOutcome(s, o, e.timeout);
    }
  }

  lemma UnlentStep(s: State, e: Event, o: PrimId)
    requires KInv(s) && Enabled(s, e) && Unlent(s, o) && JoinsUnlent(s, e, o)
    ensures Unlent(Step(s, e), o)
  {
    hide Step, KInv, Owns, Waits;
    StepInvWF(s, e);
    forall t: TaskId, p: PrimId | Waits(Step(s, e), t, o)
      ensures !Owns(Step(s, e), t, p)
    {
      NewWaiters(s, e, o, t);
      if Owns(Step(s, e), t, p) {
        NewOwners(s, e, p, t);
      }
    }
  }

  /** So the waiters for `o` rank among themselves as they did, and one that survives the
      step stays. */
  lemma WaitersKept(s: State, e: Event, o: PrimId, w: TaskId)
    requires KInv(s) && Enabled(s, e) && Unlent(s, o) && Queued(s, o, w) && Survives(s, e, w)
    ensures var r := Step(s, e);
            && KInv(r) && Queued(r, o, w) && |r.tasks| == |s.tasks| && r.tasks[w].sleep == TimeLeft(s, e, w)
            && (forall x :: x in s.prims[o].waiters ==> x < |s.tasks| && r.tasks[x].priority == s.tasks[x].priority)
            && |r.prims| == |s.prims| && r.prims[o] == PrimAfter(s, e, o)
  {
    hide Step, PrimAfter;
    StepInv(s, e);
    PrioritiesKept(s, e);
    PrimFrame(s, e);
    QueueTasks(s, o);
    ViewFrame(s, e);
    assert s.tasks[w].wait == Some(o);
    StillThere(s, e, o, w);
  }

  lemma StillThere(s: State, e: Event, o: PrimId, w: TaskId)
    requires KInv(s) && Enabled(s, e) && Queued(s, o, w) && Survives(s, e, w)
    ensures w in PrimAfter(s, e, o).waiters && ViewAfter(s, e, w).sleep == TimeLeft(s, e, w)
  {
    hide Acquire, Chosen;
    QueueTasks(s, o);
    if e.CallRelease? && e.prim == o && Chosen(s, o).Some? {
      WithoutMembers(s.prims[o].waiters, Chosen(s, o).value);
    }
    if e.CallRelease? && e.prim != o && Chosen(s, e.prim).Some? {
      assert s.tasks[w].wait == Some(o);
    }
    if e.CallDelay? || e.CallAcquire? {
      assert s.current != Some(w);
    }
    if e.CallAcquire? {
      AcquireOutcome(s, e.prim, e.timeout);
    }
  }

  /** The queue of `o` changed in one of three ways, none of which moves `w` back. */
  lemma BypassQueue(s: State, r: State, o: PrimId, w: TaskId)
    requires KInv(s) && KInv(r) && Queued(s, o, w) && Queued(r, o, w) && |r.tasks| == |s.tasks|
    requires forall x :: x in s.prims[o].waiters ==> x < |s.tasks| && r.tasks[x].priority == s.tasks[x].priority
    ensures r.prims[o].waiters == s.prims[o].waiters ==> AheadOf(r, o, w) == AheadOf(s, o, w)
    ensures r.prims[o].waiters == Drop(s.prims[o].waiters, Expired(s.tasks, |s.tasks|)) ==>
              AheadOf(r, o, w) <= AheadOf(s, o, w)
  {
    hide KInv;
    QueueTasks(s, o);
    var q := s.prims[o].waiters;
    assert forall i :: 0 <= i < |q| ==> q[i] in q;
    AheadSame(s.tasks, r.tasks, q, w);
    if w !in Expired(s.tasks, |s.tasks|) {
      Overtaken(s.tasks, r.tasks, q, w, Expired(s.tasks, |s.tasks|));
    }
  }

  lemma BypassArrival(s: State, r: State, o: PrimId, w: TaskId)
    requires KInv(s) && KInv(r) && CanRun(s) && Queued(s, o, w) && Queued(r, o, w) && |r.tasks| == |s.tasks|
    requires forall x :: x in s.prims[o].waiters ==> x < |s.tasks| && r.tasks[x].priority == s.tasks[x].priority
    requires var c := s.current.value; r.tasks[c].priority == s.tasks[c].priority <= s.tasks[w].priority
    requires r.prims[o].waiters == s.prims[o].waiters + [s.current.value]
    ensures AheadOf(r, o, w) == AheadOf(s, o, w)
  {
    QueueTasks(s, o);
    hide KInv;
    var q := s.prims[o].waiters;
    assert forall i :: 0 <= i < |q| ==> q[i] in q;
    AheadAppend(s.tasks, q, w, s.current.value);
    AheadSame(s.tasks, r.tasks, q + [s.current.value], w);
  }

  /** A release of `o` serves `w` or brings it one place forward. */
  lemma BypassRelease(s: State, o: PrimId, w: TaskId)
    requires KInv(s) && Unlent(s, o) && Queued(s, o, w) && Chosen(s, o) != Some(w)
    ensures var r := Release(s, o);
            KInv(r) && Queued(r, o, w) && AheadOf(r, o, w) + 1 == AheadOf(s, o, w)
  {
    hide Release, KInv, Chosen, Unlent;
    var e := CallRelease(o);
    QueueTasks(s, o);
    WaitersKept(s, e, o, w);
    var q := s.prims[o].waiters;
    var k := ChosenIsBest(s, o);
    PassedOver(s.tasks, Release(s, o).tasks, q, w, k);
  }

  lemma BypassAcquire(s: State, e: Event, o: PrimId, w: TaskId)
    requires KInv(s) && Unlent(s, o) && Queued(s, o, w) && Enabled(s, e) && NoOutranking(s, e, o, w)
    requires e.CallAcquire?
    ensures var r := Step(s, e); KInv(r) && Queued(r, o, w) && AheadOf(r, o, w) <= AheadOf(s, o, w)
  {
    hide Acquire, KInv, Unlent;
    QueueTasks(s, o);
    WaitersKept(s, e, o, w);
    var r := Step(s, e);
    BypassQueue(s, r, o, w);
    if e.prim == o && Acquire(s, o, e.timeout).1 == Parked {
      AcquireOutcome(s, o, e.timeout);
      AcquirePriorities(s, o, e.timeout);
      BypassArrival(s, r, o, w);
    }
  }

  /** Any other step leaves the queue alone or, at a tick, filters it. */
  lemma BypassOther(s: State, e: Event, o: PrimId, w: TaskId)
    requires KInv(s) && Unlent(s, o) && Queued(s, o, w) && Enabled(s, e) && Survives(s, e, w)
    requires !e.CallAcquire? && e != CallRelease(o)
    ensures var r := Step(s, e); KInv(r) && Queued(r, o, w) && AheadOf(r, o, w) <= AheadOf(s, o, w)
  {
    hide Step, Chosen, KInv, Unlent;
    QueueTasks(s, o);
    WaitersKept(s, e, o, w);
    BypassQueue(s, Step(s, e), o, w);
  }

  lemma BypassStep(s: State, e: Event, o: PrimId, w: TaskId)
    requires KInv(s) && Unlent(s, o) && Queued(s, o, w) && Enabled(s, e) && NoOutranking(s, e, o, w)
    requires Survives(s, e, w)
    ensures var r := Step(s, e);
            && KInv(r) && Queued(r, o, w) && |r.tasks| == |s.tasks| && r.tasks[w].sleep == TimeLeft(s, e, w)
            && AheadOf(r, o, w) + (if e == CallRelease(o) then 1 else 0) <= AheadOf(s, o, w)
  {
    hide Release, Unlent, KInv, AheadOf;
    StepInvWF(s, e);
    WaitersKept(s, e, o, w);
    if e.CallAcquire? {
      BypassAcquire(s, e, o, w);
    } else if e == CallRelease(o) {
      BypassRelease(s, o, w);
    } else {
      BypassOther(s, e, o, w);
    }
  }

  lemma StepInvWF(s: State, e: Event)
    requires KInv(s) && Enabled(s, e)
    ensures WF(s) && WF(Step(s, e)) && KInv(Step(s, e))
  {
    StepInv(s, e);
  }

  /** Everybody who joins the queue of `o` during the run owns no other mutex and does
      not outrank `w`. */
  predicate NeverOutranked(s: State, evs: seq<Event>, o: PrimId, w: TaskId)
    requires Legal(s, evs)
    decreases |evs|
  {
    evs == [] ||
    (&& NoOutranking(s, evs[0], o, w) && JoinsUnlent(s, evs[0], o)
     && NeverOutranked(Step(s, evs[0]), evs[1..], o, w))
  }

  function Releases(evs: seq<Event>, o: PrimId): nat {
    if evs == [] then 0 else (if evs[0] == CallRelease(o) then 1 else 0) + Releases(evs[1..], o)
  }

  /** Bounded bypass, for mutexes and semaphores alike: a waiter is served before the number
      of releases exceeds the number of waiters ahead of it, unless its time runs out. */
  lemma {:induction false} ServedWithin(s: State, evs: seq<Event>, o: PrimId, w: TaskId)
    requires KInv(s) && Unlent(s, o) && Legal(s, evs)
    requires Queued(s, o, w) && NeverOutranked(s, evs, o, w)
    requires Releases(evs, o) > AheadOf(s, o, w)
    ensures EverGranted(s, evs, w) || 0 < s.tasks[w].sleep <= Ticks(evs)
    decreases |evs|
  {
    if Survives(s, evs[0], w) {
      BypassStep(s, evs[0], o, w);
      UnlentStep(s, evs[0], o);
      ServedWithin(Step(s, evs[0]), evs[1..], o, w);
    }
  }
}
