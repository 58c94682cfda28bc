/** os_message_queue_t as the C code has it, called by one task that polls (timeout 0):
    the ring, its indices and the two counts implement a sliding window. */
module MessageQueue {
  import opened KernelModel
  import opened Kernel
  import opened Ring

  // ---------- the specification: a window of the newest unread messages ----------

  /** A send keeps at most `cap` messages, giving up the oldest. */
  function Push(c: seq<nat>, m: nat, cap: nat): seq<nat> {
    if |c| < cap then c + [m] else (c + [m])[1..]
  }

  datatype Call = Send(m: nat) | Receive

  function Answer(c: seq<nat>, call: Call): Option<nat> {
    if call.Send? || c == [] then None else Some(c[0])
  }

  function After(c: seq<nat>, call: Call, cap: nat): seq<nat> {
    match call
    case Send(m) => Push(c, m, cap)
    case Receive => if c == [] then c else c[1..]
  }

  /** The window after a list of calls, and what each call handed back. */
  function Window(c: seq<nat>, calls: seq<Call>, cap: nat): (r: (seq<nat>, seq<Option<nat>>))
    decreases |calls|
  {
    if calls == [] then (c, [])
    else
      var (c', outs) := Window(After(c, calls[0], cap), calls[1..], cap);
      (c', [Answer(c, calls[0])] + outs)
  }

  /** The last `n` elements of `c`, or all of them. */
  function Last(c: seq<nat>, n: nat): seq<nat> {
    if |c| <= n then c else c[|c| - n..]
  }

  function Sends(ms: seq<nat>): seq<Call> {
    if ms == [] then [] else [Send(ms[0])] + Sends(ms[1..])
  }

  function Receives(n: nat): seq<Call> {
    if n == 0 then [] else [Receive] + Receives(n - 1)
  }

  function Answers(c: seq<nat>): seq<Option<nat>> {
    if c == [] then [] else [Some(c[0])] + Answers(c[1..])
  }

  lemma {:induction false} SendsKeepLast(c: seq<nat>, ms: seq<nat>, cap: nat)
    requires cap > 0 && |c| <= cap
    ensures Window(c, Sends(ms), cap).0 == Last(c + ms, cap)
    decreases |ms|
  {
    if ms == [] {
      assert c + ms == c;
    } else {
      assert ([Send(ms[0])] + Sends(ms[1..]))[1..] == Sends(ms[1..]);
      SendsKeepLast(Push(c, ms[0], cap), ms[1..], cap);
      PushLast(c, ms, cap);
    }
  }

  lemma PushLast(c: seq<nat>, ms: seq<nat>, cap: nat)
    requires cap > 0 && |c| <= cap && ms != []
    ensures Last(Push(c, ms[0], cap) + ms[1..], cap) == Last(c + ms, cap)
  {
    assert c + [ms[0]] + ms[1..] == c + ms;
    if |c| == cap {
      assert (c + [ms[0]])[1..] + ms[1..] == (c + ms)[1..];
    }
  }

  lemma {:induction false} ReceivesDrain(c: seq<nat>, cap: nat)
    ensures Window(c, Receives(|c|), cap) == ([], Answers(c))
  {
    if c == [] {
    } else {
      assert ([Receive] + Receives(|c| - 1))[1..] == Receives(|c[1..]|);
      ReceivesDrain(c[1..], cap);
    }
  }

  lemma {:induction false} WindowAppend(c: seq<nat>, a: seq<Call>, b: seq<Call>, cap: nat)
    ensures var (c1, o1) := Window(c, a, cap); var (c2, o2) := Window(c1, b, cap);
            Window(c, a + b, cap) == (c2, o1 + o2)
    decreases |a|
  {
    if a == [] {
      assert a + b == b;
      assert [] + Window(c, b, cap).1 == Window(c, b, cap).1;
    } else {
      assert (a + b)[1..] == a[1..] + b && (a + b)[0] == a[0];
      WindowAppend(After(c, a[0], cap), a[1..], b, cap);
      var (c1, o1) := Window(After(c, a[0], cap), a[1..], cap);
      assert [Answer(c, a[0])] + (o1 + Window(c1, b, cap).1) == [Answer(c, a[0])] + o1 + Window(c1, b, cap).1;
    }
  }

  /** Any number of sends into an empty queue, then as many receives as there are
      messages: they drain as the last `cap` sent, in order. */
  lemma SendsThenReceives(ms: seq<nat>, cap: nat)
    requires cap > 0
    ensures var kept := Last(ms, cap);
            var (c, outs) := Window([], Sends(ms) + Receives(|kept|), cap);
            && c == []
            && |outs| == |Window([], Sends(ms), cap).1| + |kept|
            && outs[|outs| - |kept|..] == Answers(kept)
  {
    var kept := Last(ms, cap);
    SendsKeepLast([], ms, cap);
    assert [] + ms == ms;
    ReceivesDrain(kept, cap);
    WindowAppend([], Sends(ms), Receives(|kept|), cap);
    AnswersLength(kept);
    var o1 := Window([], Sends(ms), cap).1;
    assert (o1 + Answers(kept))[|o1|..] == Answers(kept);
  }

  lemma {:induction false} AnswersLength(c: seq<nat>)
    ensures |Answers(c)| == |c|
  {
    if c == [] {
    } else {
      AnswersLength(c[1..]);
    }
  }

  // ---------- the implementation ----------

  /** A primitive with nobody in it is well-formed anywhere. */
  lemma IdlePrimWF(s: State, o: PrimId, p: Prim)
    requires WF(s) && o < |s.prims| && p.waiters == [] && (p.Mutex? ==> p.owner == None && !p.locked)
    ensures WF(SetPrim(s, o, p))
  {
  }

  /** The caller may have dropped to its base priority; no other task changed. */
  predicate CallerAtBase(before: State, after: State) {
    && after == before.(prims := after.prims, tasks := after.tasks)
    && |after.tasks| == |before.tasks| && |after.prims| == |before.prims|
    && forall t :: 0 <= t < |before.tasks| ==>
         after.tasks[t] == before.tasks[t] ||
         (before.current == Some(t) && after.tasks[t] == before.tasks[t].(priority := before.tasks[t].base))
  }

  /** A free mutex is taken at once. */
  lemma TakeFree(s: State, o: PrimId)
    requires WF(s) && o < |s.prims| && s.prims[o] == Mutex(false, None, [])
    ensures var a := SetPrim(s, o, Mutex(true, s.current, []));
            MutexAcquire(s, o, WAIT_FOREVER) == (a, Done(Success)) && WF(a)
  {
  }

  /** And given back without anybody being woken. */
  lemma GiveBack(s: State, o: PrimId)
    requires WF(s) && o < |s.prims| && s.prims[o] == Mutex(true, s.current, [])
    ensures var r := MutexRelease(s, o);
            && WF(r) && CallerAtBase(s, r) && r.prims == s.prims[o := Mutex(false, None, [])]
  {
  }

  /** Polling a semaphore nobody waits for, and posting to it. */
  lemma PollPost(s: State, o: PrimId, n: nat, max: nat)
    requires WF(s) && o < |s.prims| && s.prims[o] == Semaphore(n, max, [])
    ensures n == 0 ==> SemAcquire(s, o, 0) == (s, Done(Timeout))
    ensures n > 0 ==> SemAcquire(s, o, 0) == (SetPrim(s, o, Semaphore(n - 1, max, [])), Done(Success))
    ensures n < max ==> SemRelease(s, o) == SetPrim(s, o, Semaphore(n + 1, max, []))
    ensures WF(SemAcquire(s, o, 0).0) && WF(SemRelease(s, o))
  {
  }

  class MessageQueue {
    const kernel: Kernel
    const lock: PrimId
    const empty: PrimId
    const filled: PrimId
    const buffer: array<nat>
    var head: nat
    var tail: nat
    ghost var contents: seq<nat>

    ghost function Repr(): set<object> {
      {this, buffer} + kernel.Repr()
    }

    /** Between the calls of a single polling caller the lock is free, nobody waits,
        and counts, indices and buffer agree with `contents`. */
    ghost predicate Valid()
      reads Repr()
    {
      && this !in kernel.Repr() && buffer !in kernel.Repr()
      && kernel.Valid() && WF(kernel.model)
      && lock < |kernel.slots| && empty < |kernel.slots| && filled < |kernel.slots|
      && lock != empty && lock != filled && empty != filled
      && var cap := buffer.Length;
      && cap > 0 && |contents| <= cap && head < cap && tail < cap
      && kernel.model.prims[lock] == Mutex(false, None, [])
      && kernel.model.prims[empty] == Semaphore(cap - |contents|, cap, [])
      && kernel.model.prims[filled] == Semaphore(|contents|, cap, [])
      && head == Slot(tail, |contents|, cap)
      && Holds(buffer[..], tail, contents, 0)
    }

    /** Outside the queue's primitives the kernel is as it was, except that the unlock
        may have returned the caller to its base priority. */
    ghost predicate OnlyOurs(before: State, after: State) {
      && CallerAtBase(before, after)
      && forall o :: 0 <= o < |before.prims| && o !in {lock, empty, filled} ==> after.prims[o] == before.prims[o]
    }

    /** os_queue_init. */
    constructor (kernel: Kernel, lock: PrimId, empty: PrimId, filled: PrimId, buffer: array<nat>)
      requires kernel.Valid() && WF(kernel.model) && buffer !in kernel.Repr() && buffer.Length > 0
      requires lock < |kernel.slots| && empty < |kernel.slots| && filled < |kernel.slots|
      requires lock != empty && lock != filled && empty != filled
      requires kernel.model.prims[lock].Mutex?
      requires kernel.model.prims[empty].Semaphore? && kernel.model.prims[filled].Semaphore?
      modifies kernel.Repr()
      ensures Valid() && contents == [] && this.kernel == kernel && this.buffer == buffer
    {
      hide Kernel.Valid, WF;
      this.kernel, this.lock, this.empty, this.filled := kernel, lock, empty, filled;
      this.buffer := buffer;
      head, tail, contents := 0, 0, [];
      new;
      kernel.Sizes();
      IdlePrimWF(kernel.model, lock, Mutex(false, None, []));
      kernel.MutexInit(lock);
      kernel.Sizes();
      IdlePrimWF(kernel.model, empty, Semaphore(buffer.Length, buffer.Length, []));
      kernel.SemInit(empty, buffer.Length, buffer.Length);
      kernel.Sizes();
      IdlePrimWF(kernel.model, filled, Semaphore(0, buffer.Length, []));
      kernel.SemInit(filled, 0, buffer.Length);
      kernel.Sizes();
      ModUnique(0, 0, 0, buffer.Length);
    }

    /** The buffer write and index moves of os_queue_send.  Without a slot the front is
        given up, be it an old message of a full ring or, in an empty one, the new one. */
    method WriteSlot(message: nat, hadSlot: bool)
      requires buffer.Length > 0 && head < buffer.Length && tail < buffer.Length
      requires head == Slot(tail, |contents|, buffer.Length) && Holds(buffer[..], tail, contents, 0)
      requires |contents| <= buffer.Length && (hadSlot ==> |contents| < buffer.Length)
      modifies this, buffer
      ensures head < buffer.Length && tail < buffer.Length
      ensures var c := old(contents) + [message]; contents == if hadSlot then c else c[1..]
      ensures head == Slot(tail, |contents|, buffer.Length) && Holds(buffer[..], tail, contents, 0)
    {
      ghost var c := contents + [message];
      HoldsAfterWrite(buffer[..], tail, contents, if hadSlot then 0 else 1, message);
      SlotNext(tail, |contents|, buffer.Length);
      buffer[head] := message;
      head := (head + 1) % buffer.Length;
      if !hadSlot {
        HoldsAfterPop(buffer[..], tail, c);
        SlotNext(tail, |contents|, buffer.Length);
        tail := (tail + 1) % buffer.Length;
      }
      contents := if hadSlot then c else c[1..];
    }

    /** The buffer read and tail move of os_queue_receive. */
    method ReadSlot() returns (v: nat)
      requires buffer.Length > 0 && head < buffer.Length && tail < buffer.Length
      requires head == Slot(tail, |contents|, buffer.Length) && Holds(buffer[..], tail, contents, 0)
      requires contents != []
      modifies this
      ensures head < buffer.Length && tail < buffer.Length
      ensures v == old(contents)[0] && contents == old(contents)[1..]
      ensures head == Slot(tail, |contents|, buffer.Length) && Holds(buffer[..], tail, contents, 0)
    {
      ModUnique(tail, 0, tail, buffer.Length);
      assert buffer[..][Slot(tail, 0, buffer.Length)] == contents[0];
      v := buffer[tail];
      HoldsAfterPop(buffer[..], tail, contents);
      SlotNext(tail, |contents| - 1, buffer.Length);
      tail := (tail + 1) % buffer.Length;
      contents := contents[1..];
    }

    /** The kernel is fit for use and the queue's primitives are where they should be. */
    ghost predicate Usable()
      reads Repr()
    {
      && this !in kernel.Repr() && buffer !in kernel.Repr()
      && kernel.Valid() && WF(kernel.model) && |kernel.model.prims| == |kernel.slots|
      && lock < |kernel.slots| && empty < |kernel.slots| && filled < |kernel.slots|
      && lock != empty && lock != filled && empty != filled
    }

    method Poll(o: PrimId, ghost n: nat) returns (ok: bool)
      requires Usable() && o in {empty, filled} && kernel.model.prims[o] == Semaphore(n, buffer.Length, [])
      modifies kernel.Repr()
      ensures Usable() && (ok <==> n > 0)
      ensures kernel.model ==
              SetPrim(old(kernel.model), o, Semaphore(if ok then n - 1 else n, buffer.Length, []))
    {
      hide WF, SemAcquire;
      PollPost(kernel.model, o, n, buffer.Length);
      var out := kernel.SemAcquire(o, 0);
      ok := out == Done(Success);
    }

    method Post(o: PrimId, ghost n: nat)
      requires Usable() && o in {empty, filled} && kernel.model.prims[o] == Semaphore(n, buffer.Length, [])
      requires n < buffer.Length
      modifies kernel.Repr()
      ensures Usable()
      ensures kernel.model == SetPrim(old(kernel.model), o, Semaphore(n + 1, buffer.Length, []))
    {
      hide WF, SemRelease;
      PollPost(kernel.model, o, n, buffer.Length);
      kernel.SemRelease(o);
    }

    /** With no other caller the lock is always free, so the path for a failed acquire
        is not entered. */
    method Lock()
      requires Usable() && kernel.model.prims[lock] == Mutex(false, None, [])
      modifies kernel.Repr()
      ensures Usable()
      ensures kernel.model == SetPrim(old(kernel.model), lock, Mutex(true, old(kernel.model).current, []))
    {
      hide WF, MutexAcquire;
      TakeFree(kernel.model, lock);
      var got := kernel.MutexAcquire(lock, WAIT_FOREVER);
      assert got == Done(Success);
    }

    method Unlock()
      requires Usable() && kernel.model.prims[lock] == Mutex(true, kernel.model.current, [])
      modifies kernel.Repr()
      ensures Usable() && CallerAtBase(old(kernel.model), kernel.model)
      ensures kernel.model.prims == old(kernel.model).prims[lock := Mutex(false, None, [])]
    {
      hide WF, MutexRelease;
      GiveBack(kernel.model, lock);
      kernel.MutexRelease(lock);
    }

    /** os_queue_send with timeout 0. */
    method Send(message: nat) returns (code: Code)
      requires Valid()
      modifies Repr()
      ensures Valid() && code == Success
      ensures contents == Push(old(contents), message, buffer.Length)
      ensures OnlyOurs(old(kernel.model), kernel.model)
    {
      hide WF, Kernel.Valid, Holds;
      kernel.Sizes();
      ghost var n := |contents|;
      var hadSlot := Poll(empty, buffer.Length - n);
      Lock();
      WriteSlot(message, hadSlot);
      Unlock();
      if hadSlot {
        Post(filled, n);
      }
      return Success;
    }

    /** os_queue_receive with timeout 0. */
    method Receive() returns (code: Code, v: nat)
      requires Valid()
      modifies Repr()
      ensures Valid()
      ensures code == if old(contents) == [] then Timeout else Success
      ensures contents == (if old(contents) == [] then [] else old(contents)[1..])
      ensures old(contents) != [] ==> v == old(contents)[0]
      ensures OnlyOurs(old(kernel.model), kernel.model)
    {
      hide WF, Kernel.Valid, Holds;
      kernel.Sizes();
      ghost var n := |contents|;
      v := 0;
      var item := Poll(filled, n);
      if !item {
        return Timeout, v;
      }
      Lock();
      v := ReadSlot();
      Unlock();
      Post(empty, buffer.Length - n);
      return Success, v;
    }

    /** Every sequence of polling calls behaves as the sliding window does. */
    method Perform(calls: seq<Call>) returns (outs: seq<Option<nat>>)
      requires Valid()
      modifies Repr()
      ensures Valid() && (contents, outs) == Window(old(contents), calls, buffer.Length)
      decreases |calls|
    {
      if calls == [] {
        return [];
      }
      var out: Option<nat>;
      match calls[0] {
        case Send(m) =>
          var code := Send(m);
          out := None;
        case Receive =>
          var code, v := Receive();
          out := if code == Success then Some(v) else None;
      }
      var rest := Perform(calls[1..]);
      outs := [out] + rest;
    }
  }
}
