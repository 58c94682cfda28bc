/** SysTick_Handler visits the tasks one by one and shifts shared queue arrays as
    it goes.  Seen from outside it is one simultaneous update. */
module TickRefinement {
  import opened Sequences
  import opened KernelModel
  import opened KernelInvariant

  /** One tick as a single task experiences it. */
  function Ticked(t: Tcb): Tcb {
    if t.sleep == 0 then t
    else if t.sleep > 1 then t.(sleep := t.sleep - 1)
    else t.(sleep := 0, state := Ready, wait := None,
            result := if t.wait.Some? then Timeout else t.result)
  }

  /** The tasks below `i` whose timer runs out at this tick. */
  function Expired(tasks: seq<Tcb>, i: nat): (r: set<TaskId>)
    requires i <= |tasks|
    ensures forall t: TaskId :: t in r <==> t < i && tasks[t].sleep == 1
  {
    if i == 0 then {}
    else Expired(tasks, i - 1) + (if tasks[i - 1].sleep == 1 then {i - 1} else {})
  }

  /** Tasks below `i` ticked together, and the ones that expired gone from every queue. */
  function TickPrefix(s: State, i: nat): (r: State)
    requires i <= |s.tasks|
    ensures |r.tasks| == |s.tasks| && |r.prims| == |s.prims|
  {
    s.(tasks := seq(|s.tasks|, j requires 0 <= j < |s.tasks| =>
                      if j < i then Ticked(s.tasks[j]) else s.tasks[j]),
       prims := seq(|s.prims|, o requires 0 <= o < |s.prims| =>
                      SetWaiters(s.prims[o], Drop(s.prims[o].waiters, Expired(s.tasks, i)))))
  }

  /** The simultaneous update. */
  function TickAll(s: State): State {
    TickPrefix(s, |s.tasks|).(ticks := (s.ticks + 1) % TICK_MODULUS, pending := true)
  }

  /** Task `i` timing out of queue `o` filters that queue by one more task and
      leaves the others as they were. */
  lemma QueueAfterExpiry(s: State, i: TaskId, o: PrimId)
    requires Linked(s) && i < |s.tasks| && s.tasks[i].sleep == 1 && o < |s.prims|
    ensures var before := Drop(s.prims[o].waiters, Expired(s.tasks, i));
            var after := Drop(s.prims[o].waiters, Expired(s.tasks, i + 1));
            after == if s.tasks[i].wait == Some(o) then Without(before, i) else before
  {
    var q := s.prims[o].waiters;
    if s.tasks[i].wait == Some(o) {
      DropOneMore(q, Expired(s.tasks, i), i);
    } else {
      assert i !in q;
      DropSame(q, Expired(s.tasks, i), Expired(s.tasks, i + 1));
    }
  }

  /** A task whose timer does not run out leaves every queue alone. */
  lemma TickTaskQuiet(s: State, i: TaskId)
    requires Linked(s) && i < |s.tasks| && WF(TickPrefix(s, i)) && s.tasks[i].sleep != 1
    ensures TickTask(TickPrefix(s, i), i) == TickPrefix(s, i + 1)
  {
    hide Linked;
    var r := TickTask(TickPrefix(s, i), i);
    var b := TickPrefix(s, i + 1);
    assert Expired(s.tasks, i + 1) == Expired(s.tasks, i);
    assert r.prims == b.prims;
    assert r.tasks == b.tasks;
  }

  /** A task whose timer runs out leaves the queue it is in. */
  lemma ExpiredQueue(s: State, i: TaskId, o: PrimId)
    requires Linked(s) && i < |s.tasks| && WF(TickPrefix(s, i)) && s.tasks[i].sleep == 1 && o < |s.prims|
    ensures TickTask(TickPrefix(s, i), i).prims[o] == TickPrefix(s, i + 1).prims[o]
  {
    assert TickPrefix(s, i).tasks[i] == s.tasks[i];
    QueueAfterExpiry(s, i, o);
    hide Linked, WF, Expired;
  }

  lemma TickTaskExpires(s: State, i: TaskId)
    requires Linked(s) && i < |s.tasks| && WF(TickPrefix(s, i)) && s.tasks[i].sleep == 1
    ensures TickTask(TickPrefix(s, i), i) == TickPrefix(s, i + 1)
  {
    var r := TickTask(TickPrefix(s, i), i);
    var b := TickPrefix(s, i + 1);
    assert TickPrefix(s, i).tasks[i] == s.tasks[i];
    forall o | 0 <= o < |s.prims|
      ensures r.prims[o] == b.prims[o]
    {
      ExpiredQueue(s, i, o);
    }
    hide Linked, WF, Expired;
    assert r.prims == b.prims;
    assert r.tasks == b.tasks;
  }

  lemma TickTaskStep(s: State, i: TaskId)
    requires Linked(s) && i < |s.tasks| && WF(TickPrefix(s, i))
    ensures TickTask(TickPrefix(s, i), i) == TickPrefix(s, i + 1)
  {
    hide TickTask, TickPrefix, Linked, WF;
    if s.tasks[i].sleep == 1 {
      TickTaskExpires(s, i);
    } else {
      TickTaskQuiet(s, i);
    }
  }

  lemma {:induction false} TickUpToIsPrefix(s: State, i: nat)
    requires Linked(s) && i <= |s.tasks|
    ensures TickUpTo(s, i) == TickPrefix(s, i)
  {
    if i == 0 {
      forall o | 0 <= o < |s.prims|
        ensures TickPrefix(s, 0).prims[o] == s.prims[o]
      {
        DropNothing(s.prims[o].waiters, Expired(s.tasks, 0));
      }
      assert TickPrefix(s, 0).prims == s.prims;
      assert TickPrefix(s, 0).tasks == s.tasks;
    } else {
      TickUpToIsPrefix(s, i - 1);
      TickTaskStep(s, i - 1);
    }
  }

  /** The loop over tasks refines the simultaneous update. */
  lemma TickIsSimultaneous(s: State)
    requires Linked(s)
    ensures Tick(s) == TickAll(s)
  {
    var s0 := s.(ticks := (s.ticks + 1) % TICK_MODULUS);
    assert forall o :: 0 <= o < |s.prims| ==> s0.prims[o] == s.prims[o];
    assert Linked(s0);
    TickUpToIsPrefix(s0, |s.tasks|);
  }

  lemma TickAllLinked(s: State)
    requires Linked(s)
    ensures Linked(TickAll(s))
  {
    var r := TickAll(s);
    forall o | 0 <= o < |r.prims|
      ensures NoDup(r.prims[o].waiters) && PrimOk(r.prims[o], |r.tasks|, r.launched)
    {
      DropNoDup(s.prims[o].waiters, Expired(s.tasks, |s.tasks|));
      assert PrimOk(s.prims[o], |s.tasks|, s.launched);
    }
    forall t, o | 0 <= t < |r.tasks| && 0 <= o < |r.prims|
      ensures r.tasks[t].wait == Some(o) <==> t in r.prims[o].waiters
    {
      assert s.tasks[t].wait == Some(o) <==> t in s.prims[o].waiters;
    }
    forall t | 0 <= t < |r.tasks|
      ensures TaskOk(r.tasks[t], |r.prims|)
    {
      assert TaskOk(s.tasks[t], |s.prims|);
    }
  }

  lemma TickInv(s: State)
    requires KInv(s)
    ensures KInv(Tick(s))
  {
    TickIsSimultaneous(s);
    TickAllLinked(s);
    var r := TickAll(s);
    forall t | 0 <= t < |r.tasks|
      ensures TaskInv(r.tasks[t])
    {
      assert TaskInv(s.tasks[t]);
    }
    forall o | 0 <= o < |r.prims|
      ensures PrimInv(r.prims[o])
    {
      assert PrimInv(s.prims[o]);
    }
    assert OneRunning(r);
  }
}
