/** Kernel and processor together: task creation with the stack it builds, and PendSV with
    the scheduler call, and its canary check, in the middle. */
module Dispatch {
  import KM = KernelModel
  import opened Kernel
  import opened ContextSwitch

  /** The processor's memory is none of the kernel's, and both have the same current task. */
  ghost predicate Joined(p: Processor, k: Kernel)
    reads p, k.Repr()
  {
    && k.Valid() && KM.WF(k.model) && p.Separate()
    && p !in k.Repr() && p.mem !in k.Repr() && p.stackPtr !in k.Repr()
    && p.stackPtr.Length == k.maxTasks
    && (k.current.Some? ==> k.current.value == p.current < k.taskCount)
  }

  /** os_task_create, with the canary and the first frame.  `entry` 0 is the NULL pointer. */
  method CreateTask(p: Processor, k: Kernel, entry: Word, stack: Stack, priority: nat) returns (ok: bool)
    requires Joined(p, k) && Top(stack) <= p.mem.Length
    modifies k.Repr(), p, p.mem, p.stackPtr
    ensures Joined(p, k)
    ensures ok <==> |old(k.model).tasks| < k.maxTasks && entry != 0 && stack.words >= 64
    ensures !ok ==> k.model == old(k.model) && p.View() == old(p.View())
    ensures ok ==>
              var t := |old(k.model).tasks|;
              && k.model == KM.TaskCreate(old(k.model), priority)
              && k.model.tasks == old(k.model).tasks + [KM.Tcb(KM.Ready, priority, priority, 0, KM.None, KM.Success)]
              && p.mem[..] == NewStack(old(p.mem[..]), stack, entry)
              && p.stackPtr[..] == old(p.stackPtr[..])[t := AlignedTop(stack) - 16]
  {
    k.Sizes();
    var t := k.taskCount;
    var first := k.current == KM.None;
    ok := k.TaskCreate(entry, stack.words, priority);
    if !ok {
      return;
    }
    p.InitStack(t, stack.base, stack.words, entry);
    if first {
      p.current := t;
    }
  }

  lemma SwitchWF(s: KM.State)
    requires KM.WF(s) && s.current.Some?
    ensures var s0 := s.(pending := false); var r := KM.Switch(s);
            && KM.WF(s0) && r == KM.Schedule(s0) && KM.WF(r)
            && r.current.Some? && r.current.value < |r.tasks| == |s.tasks|
  {
  }

  /** A processor that can switch can do each part of it. */
  lemma SwitchFits(m: Machine, next: nat)
    requires CanSwitch(m, m.current) && CanSwitch(m, next)
    ensures CanEnter(m) && m.current < |m.stackPtr| && 8 <= Enter(m).cpu.psp
    ensures var s := Save(Enter(m));
            && s.current == m.current && |s.mem| == |m.mem| && |s.stackPtr| == |m.stackPtr|
            && next < |s.stackPtr| && s.stackPtr[next] + 16 <= |s.mem|
            && Leave(Restore(s.(current := next))) == SwitchTo(m, next) && SwitchTo(m, next).current == next
  {
  }

  /** PendSV from exception entry to exception return.  os_scheduler checks the canary of
      the task that was switched out, after its registers were saved.  A broken one ends in
      os_stack_overflow_hook, which does not return: `halted`. */
  method PendSV(p: Processor, k: Kernel, stacks: seq<Stack>, scratch: seq<Word>) returns (halted: bool)
    requires Joined(p, k) && k.current.Some? && |stacks| == k.taskCount
    requires stacks[p.current].base < p.mem.Length
    requires CanSwitch(p.View(), p.current)
    requires forall next :: 0 <= next < k.taskCount ==> CanSwitch(p.View(), next)
    modifies k.Repr(), p, p.mem, p.stackPtr
    ensures Joined(p, k)
    ensures halted <==> Save(Enter(old(p.View()))).mem[stacks[old(p.current)].base] != STACK_CANARY
    ensures halted ==> k.model == old(k.model).(pending := false)
    ensures !halted ==>
              && k.model == KM.Switch(old(k.model))
              && k.current == KM.Some(p.current) && p.current < k.taskCount
              && p.View() == SwitchTo(old(p.View()), p.current)
  {
    hide Kernel.Valid, KM.WF, KM.Schedule, CanSwitch, CanEnter, Enter, Save, Restore, Leave, SwitchTo;
    ghost var m := p.View();
    SwitchFits(m, p.current);
    k.Sizes();
    SwitchWF(k.model);
    k.TakeRequest();
    p.SwitchOut();
    if p.mem[stacks[p.current].base] != STACK_CANARY {
      return true;
    }
    k.Schedule();
    k.Sizes();
    SwitchFits(m, k.current.value);
    p.SwitchIn(k.current.value, scratch);
    return false;
  }
}
