/** The context switch: exception entry, PendSV_Handler and exception return, on a
    memory that holds every task's stack.  Addresses count 32-bit words, so "8-byte
    aligned" reads "even".

    Exception entry and return follow sections B1.5.6 and B1.5.8 of the ARMv7-M
    Architecture Reference Manual, for a core without floating-point state and with
    CCR.STKALIGN set: entry aligns the frame to 8 bytes and records in bit 9 of the
    stacked xPSR whether it had to. */
module ContextSwitch {

  type Word = nat

  const STACK_CANARY: Word := 0xC0FFEE
  const ALIGN_BIT: nat := 512                 // xPSR bit 9

  /** What a task can see of the core.  `hw` is R0-R3, R12, LR, PC and xPSR in the order
      the hardware stacks them; `sw` is R4-R11. */
  datatype Context = Context(hw: seq<Word>, sw: seq<Word>, psp: nat)

  const PC := 6
  const XPSR := 7

  function AlignBit(psr: Word): nat {
    (psr / ALIGN_BIT) % 2
  }

  /** Bit 24 of xPSR: the core executes Thumb instructions, as it must. */
  predicate Thumb(psr: Word) {
    (psr / 0x0100_0000) % 2 == 1
  }

  /** Registers a task can go on with.  In its own xPSR bit 9 is clear. */
  predicate Proper(c: Context) {
    |c.hw| == 8 && |c.sw| == 8 && AlignBit(c.hw[XPSR]) == 0 && Thumb(c.hw[XPSR])
  }

  // ---------- memory ----------

  function Store(mem: seq<Word>, at: nat, ws: seq<Word>): (r: seq<Word>)
    requires at + |ws| <= |mem|
    ensures |r| == |mem|
    ensures forall i :: 0 <= i < |mem| ==> r[i] == if at <= i < at + |ws| then ws[i - at] else mem[i]
  {
    mem[..at] + ws + mem[at + |ws|..]
  }

  function Load(mem: seq<Word>, at: nat, n: nat): (r: seq<Word>)
    requires at + n <= |mem|
    ensures |r| == n && forall i :: 0 <= i < n ==> r[i] == mem[at + i]
  {
    mem[at..at + n]
  }

  lemma StoreNothing(mem: seq<Word>, at: nat)
    requires at <= |mem|
    ensures Store(mem, at, []) == mem
  {
  }

  /** The core, the memory, current_tcb and each task control block's stackPtr. */
  datatype Machine = Machine(mem: seq<Word>, cpu: Context, current: nat, stackPtr: seq<nat>)

  // ---------- exception entry and return ----------

  function Padding(psp: nat): nat {
    psp % 2
  }

  function Stacked(hw: seq<Word>, pad: nat): seq<Word>
    requires |hw| == 8
  {
    hw[XPSR := hw[XPSR] + ALIGN_BIT * pad]
  }

  predicate CanEnter(m: Machine) {
    Proper(m.cpu) && 8 + Padding(m.cpu.psp) <= m.cpu.psp <= |m.mem|
  }

  /** Exception entry: the hardware frame goes onto the process stack. */
  function Enter(m: Machine): (r: Machine)
    requires CanEnter(m)
    ensures |r.mem| == |m.mem| && r.cpu.psp == m.cpu.psp - 8 - Padding(m.cpu.psp)
  {
    var pad := Padding(m.cpu.psp);
    var sp := m.cpu.psp - 8 - pad;
    m.(mem := Store(m.mem, sp, Stacked(m.cpu.hw, pad)), cpu := m.cpu.(psp := sp))
  }

  /** Exception return: the hardware frame is popped, with its padding. */
  function Leave(m: Machine): (r: Machine)
    requires m.cpu.psp + 8 <= |m.mem|
    ensures r == m.(cpu := r.cpu) && |r.cpu.hw| == 8
  {
    var frame := Load(m.mem, m.cpu.psp, 8);
    var pad := AlignBit(frame[XPSR]);
    var top := m.cpu.psp + 8;
    m.(cpu := m.cpu.(hw := frame[XPSR := frame[XPSR] - ALIGN_BIT * pad],
                     psp := if top % 2 == 0 then top + pad else top))
  }

  // ---------- PendSV_Handler ----------

  /** STMDB and the store to current_tcb->stackPtr. */
  function Save(m: Machine): (r: Machine)
    requires m.current < |m.stackPtr| && |m.cpu.sw| == 8 && 8 <= m.cpu.psp <= |m.mem|
    ensures |r.mem| == |m.mem|
  {
    var sp := m.cpu.psp - 8;
    m.(mem := Store(m.mem, sp, m.cpu.sw), stackPtr := m.stackPtr[m.current := sp])
  }

  /** The load of the new task's stackPtr, LDMIA and the move to PSP. */
  function Restore(m: Machine): Machine
    requires m.current < |m.stackPtr| && m.stackPtr[m.current] + 8 <= |m.mem|
  {
    var sp := m.stackPtr[m.current];
    m.(cpu := m.cpu.(sw := Load(m.mem, sp, 8), psp := sp + 8))
  }

  /** The caller-saved registers hold something else. */
  function Clobbered(m: Machine, scratch: seq<Word>): Machine {
    m.(cpu := m.cpu.(hw := scratch))
  }

  predicate CanSwitch(m: Machine, next: nat) {
    && Proper(m.cpu) && m.current < |m.stackPtr| && next < |m.stackPtr|
    && 16 + Padding(m.cpu.psp) <= m.cpu.psp <= |m.mem|
    && (next != m.current ==> m.stackPtr[next] + 16 <= |m.mem|)
  }

  /** A whole switch to the task that os_scheduler made current. */
  function SwitchTo(m: Machine, next: nat): (r: Machine)
    requires CanSwitch(m, next)
    ensures |r.mem| == |m.mem|
  {
    var saved := Save(Enter(m));
    Leave(Restore(saved.(current := next)))
  }

  lemma ScratchIsLost(m: Machine, scratch: seq<Word>)
    requires m.cpu.psp + 8 <= |m.mem|
    ensures Leave(Clobbered(m, scratch)) == Leave(m)
  {
  }

  // ---------- frames ----------

  /** The 16 words from `sp` up are a switched-out task's registers. */
  predicate FrameAt(mem: seq<Word>, sp: nat, c: Context) {
    && Proper(c) && sp % 2 == 0 && sp + 16 + Padding(c.psp) == c.psp && sp + 16 <= |mem|
    && Load(mem, sp, 8) == c.sw
    && Load(mem, sp + 8, 8) == Stacked(c.hw, Padding(c.psp))
  }

  /** Saving writes the running task's frame, and nothing outside it. */
  lemma SaveMakesFrame(m: Machine)
    requires Proper(m.cpu) && m.current < |m.stackPtr|
    requires 16 + Padding(m.cpu.psp) <= m.cpu.psp <= |m.mem|
    ensures var s := Save(Enter(m)); var sp := m.cpu.psp - 16 - Padding(m.cpu.psp);
            && s.stackPtr == m.stackPtr[m.current := sp] && FrameAt(s.mem, sp, m.cpu)
            && |s.mem| == |m.mem| && s.current == m.current
            && s.mem[sp + 15] == m.cpu.hw[7] + (if m.cpu.psp % 2 == 1 then 512 else 0)
            && forall i :: 0 <= i < |m.mem| && !(sp <= i < sp + 16) ==> s.mem[i] == m.mem[i]
  {
  }

  /** Restoring from a frame gives back exactly the registers it was made from. */
  lemma RestoreFromFrame(m: Machine, c: Context)
    requires m.current < |m.stackPtr| && FrameAt(m.mem, m.stackPtr[m.current], c)
    ensures Leave(Restore(m)) == m.(cpu := c)
  {
  }

  // ---------- stacks ----------

  datatype Stack = Stack(base: nat, words: nat)

  function Top(k: Stack): nat {
    k.base + k.words
  }

  predicate In(k: Stack, i: nat) {
    k.base <= i < Top(k)
  }

  predicate Apart(a: Stack, b: Stack) {
    Top(a) <= b.base || Top(b) <= a.base
  }

  predicate Layout(stacks: seq<Stack>, size: nat) {
    && (forall t :: 0 <= t < |stacks| ==> Top(stacks[t]) <= size)
    && (forall t, u :: 0 <= t < u < |stacks| ==> Apart(stacks[t], stacks[u]))
  }

  /** The task has room on its stack for a full frame above the canary. */
  predicate Headroom(k: Stack, psp: nat) {
    k.base + 18 <= psp <= Top(k)
  }

  /** Every switched-out task has its registers, `saved`, in a frame on its own stack. */
  ghost predicate SwitchInv(m: Machine, stacks: seq<Stack>, saved: seq<Context>) {
    && |stacks| == |saved| <= |m.stackPtr| && m.current < |stacks|
    && Layout(stacks, |m.mem|)
    && (forall t :: 0 <= t < |stacks| && t != m.current ==>
          && stacks[t].base < m.stackPtr[t] && saved[t].psp <= Top(stacks[t])
          && FrameAt(m.mem, m.stackPtr[t], saved[t]))
  }

  // ---------- runs ----------

  /** `Work` is any amount of computation by the current task: its registers become
      `cpu` and memory becomes `mem`.  `SwitchTask` is a PendSV that ends in `next`. */
  datatype Step = Work(cpu: Context, mem: seq<Word>) | SwitchTask(next: nat)

  /** A task writes to no other task's stack, and leaves itself room to be switched out. */
  predicate Permitted(m: Machine, stacks: seq<Stack>, e: Step)
    requires |stacks| <= |m.stackPtr| && m.current < |stacks|
  {
    match e
    case Work(cpu, mem) =>
      && Proper(cpu) && |mem| == |m.mem|
      && (forall t, i :: 0 <= t < |stacks| && t != m.current && 0 <= i < |mem| && In(stacks[t], i) ==>
            mem[i] == m.mem[i])
    case SwitchTask(next) =>
      next < |stacks| && Proper(m.cpu) && Headroom(stacks[m.current], m.cpu.psp)
  }

  ghost function Do(m: Machine, stacks: seq<Stack>, saved: seq<Context>, e: Step): (Machine, seq<Context>)
    requires SwitchInv(m, stacks, saved) && Permitted(m, stacks, e)
  {
    match e
    case Work(cpu, mem) => (m.(cpu := cpu, mem := mem), saved)
    case SwitchTask(next) => (SwitchTo(m, next), saved[m.current := m.cpu])
  }

  lemma FrameKept(mem: seq<Word>, mem': seq<Word>, sp: nat, c: Context)
    requires FrameAt(mem, sp, c) && |mem'| == |mem|
    requires forall i :: sp <= i < sp + 16 ==> mem'[i] == mem[i]
    ensures FrameAt(mem', sp, c)
  {
  }

  lemma SwitchCorrect(m: Machine, stacks: seq<Stack>, saved: seq<Context>, next: nat)
    requires SwitchInv(m, stacks, saved) && Permitted(m, stacks, SwitchTask(next))
    ensures CanSwitch(m, next)
    ensures var saved' := saved[m.current := m.cpu];
            && SwitchTo(m, next).current == next && SwitchTo(m, next).cpu == saved'[next]
            && SwitchInv(SwitchTo(m, next), stacks, saved')
  {
    SaveMakesFrame(m);
    var s := Save(Enter(m));
    var saved' := saved[m.current := m.cpu];
    forall t | 0 <= t < |stacks|
      ensures stacks[t].base < s.stackPtr[t] && saved'[t].psp <= Top(stacks[t])
      ensures FrameAt(s.mem, s.stackPtr[t], saved'[t])
    {
      if t != m.current {
        assert Apart(stacks[t], stacks[m.current]);
        FrameKept(m.mem, s.mem, m.stackPtr[t], saved[t]);
      }
    }
    RestoreFromFrame(s.(current := next), saved'[next]);
  }

  /** A switch leaves every stack's canary word alone. */
  lemma SwitchKeepsCanaries(m: Machine, stacks: seq<Stack>, saved: seq<Context>, next: nat, t: nat)
    requires SwitchInv(m, stacks, saved) && Permitted(m, stacks, SwitchTask(next))
    requires t < |stacks| && stacks[t].words > 0
    ensures CanSwitch(m, next) && SwitchTo(m, next).mem[stacks[t].base] == m.mem[stacks[t].base]
  {
  }

  /** Nor does saving the outgoing task, so the check that os_scheduler then makes finds a
      broken canary exactly if the task itself had overrun its stack. */
  lemma SaveKeepsCanary(m: Machine, stacks: seq<Stack>, saved: seq<Context>)
    requires SwitchInv(m, stacks, saved) && Permitted(m, stacks, SwitchTask(m.current))
    ensures forall next :: 0 <= next < |stacks| ==> CanSwitch(m, next)
    ensures var at := stacks[m.current].base;
            at < |m.mem| && Save(Enter(m)).mem[at] == m.mem[at]
  {
    forall next | 0 <= next < |stacks|
      ensures CanSwitch(m, next)
    {
      SwitchCorrect(m, stacks, saved, next);
    }
    SaveMakesFrame(m);
  }

  lemma DoKeepsInv(m: Machine, stacks: seq<Stack>, saved: seq<Context>, e: Step)
    requires SwitchInv(m, stacks, saved) && Permitted(m, stacks, e)
    ensures var (m', saved') := Do(m, stacks, saved, e); SwitchInv(m', stacks, saved')
  {
    match e
    case SwitchTask(next) => SwitchCorrect(m, stacks, saved, next);
    case Work(cpu, mem) =>
      forall t | 0 <= t < |stacks| && t != m.current
        ensures FrameAt(mem, m.stackPtr[t], saved[t])
      {
        assert forall i :: m.stackPtr[t] <= i < m.stackPtr[t] + 16 ==> In(stacks[t], i);
        FrameKept(m.mem, mem, m.stackPtr[t], saved[t]);
      }
  }

  /** What the machine, without any bookkeeping, does at each step. */
  function Act(m: Machine, e: Step): Machine
    requires e.SwitchTask? ==> CanSwitch(m, e.next)
  {
    match e
    case Work(cpu, mem) => m.(cpu := cpu, mem := mem)
    case SwitchTask(next) => SwitchTo(m, next)
  }

  /** `es` can be performed by the machine, with every task keeping to its own stack. */
  predicate Behaves(m: Machine, stacks: seq<Stack>, es: seq<Step>)
    decreases |es|
  {
    && |stacks| <= |m.stackPtr| && m.current < |stacks|
    && (es == [] ||
        (&& Permitted(m, stacks, es[0])
         && (es[0].SwitchTask? ==> CanSwitch(m, es[0].next))
         && Behaves(Act(m, es[0]), stacks, es[1..])))
  }

  function ActAll(m: Machine, stacks: seq<Stack>, es: seq<Step>): Machine
    requires Behaves(m, stacks, es)
    decreases |es|
  {
    if es == [] then m else ActAll(Act(m, es[0]), stacks, es[1..])
  }

  /** The invariant holds after any run, and a task that is not switched in keeps the
      registers it was switched out with. */
  lemma {:induction false} SavedKept(m: Machine, stacks: seq<Stack>, saved: seq<Context>, es: seq<Step>, t: nat)
      returns (saved': seq<Context>)
    requires SwitchInv(m, stacks, saved) && Behaves(m, stacks, es)
    requires t < |stacks| && t != m.current
    requires forall i :: 0 <= i < |es| ==> es[i] != SwitchTask(t)
    ensures SwitchInv(ActAll(m, stacks, es), stacks, saved')
    ensures ActAll(m, stacks, es).current != t && saved'[t] == saved[t]
    decreases |es|
  {
    saved' := saved;
    if es == [] {
    } else {
      var e := es[0];
      DoKeepsInv(m, stacks, saved, e);
      assert es[0] != SwitchTask(t);
      if e.SwitchTask? {
        SwitchCorrect(m, stacks, saved, e.next);
      }
      saved' := SavedKept(Act(m, e), stacks, Do(m, stacks, saved, e).1, es[1..], t);
    }
  }

  /** Every run from such a machine keeps the invariant. */
  lemma {:induction false} RunKeepsInv(m: Machine, stacks: seq<Stack>, saved: seq<Context>, es: seq<Step>)
      returns (saved': seq<Context>)
    requires SwitchInv(m, stacks, saved) && Behaves(m, stacks, es)
    ensures SwitchInv(ActAll(m, stacks, es), stacks, saved')
    decreases |es|
  {
    saved' := saved;
    if es == [] {
    } else {
      DoKeepsInv(m, stacks, saved, es[0]);
      saved' := RunKeepsInv(Act(m, es[0]), stacks, Do(m, stacks, saved, es[0]).1, es[1..]);
    }
  }

  /** Whenever a task is next switched in, it gets the registers saved for it. */
  lemma Resumes(m: Machine, stacks: seq<Stack>, saved: seq<Context>, es: seq<Step>, t: nat)
    requires SwitchInv(m, stacks, saved) && t < |stacks| && t != m.current
    requires Behaves(m, stacks, es + [SwitchTask(t)])
    requires forall i :: 0 <= i < |es| ==> es[i] != SwitchTask(t)
    ensures var r := ActAll(m, stacks, es + [SwitchTask(t)]); r.current == t && r.cpu == saved[t]
  {
    BehavesSplit(m, stacks, es, [SwitchTask(t)]);
    var saved' := SavedKept(m, stacks, saved, es, t);
    var m' := ActAll(m, stacks, es);
    assert Permitted(m', stacks, SwitchTask(t));
    SwitchCorrect(m', stacks, saved', t);
    hide SwitchTo, SwitchInv;
    assert [SwitchTask(t)][1..] == [];
  }

  lemma ActFirst(m: Machine, stacks: seq<Stack>, e: Step, es: seq<Step>)
    requires Behaves(m, stacks, [e] + es)
    ensures Permitted(m, stacks, e) && (e.SwitchTask? ==> CanSwitch(m, e.next))
    ensures Behaves(Act(m, e), stacks, es)
    ensures ActAll(m, stacks, [e] + es) == ActAll(Act(m, e), stacks, es)
  {
  }

  /** Context integrity over whole runs.  A task switched out by PendSV, whatever the
      other tasks then compute and however many switches come between, resumes with
      exactly the registers and stack pointer it had. */
  lemma ContextIntegrity(m: Machine, stacks: seq<Stack>, saved: seq<Context>, u: nat, es: seq<Step>)
    requires SwitchInv(m, stacks, saved) && u != m.current
    requires Behaves(m, stacks, [SwitchTask(u)] + (es + [SwitchTask(m.current)]))
    requires forall i :: 0 <= i < |es| ==> es[i] != SwitchTask(m.current)
    ensures var r := ActAll(m, stacks, [SwitchTask(u)] + (es + [SwitchTask(m.current)]));
            r.current == m.current && r.cpu == m.cpu
  {
    hide SwitchTo, SwitchInv, Behaves, CanSwitch, ActAll;
    var t := m.current;
    ActFirst(m, stacks, SwitchTask(u), es + [SwitchTask(t)]);
    InvSizes(m, stacks, saved);
    SwitchCorrect(m, stacks, saved, u);
    Resumes(SwitchTo(m, u), stacks, saved[t := m.cpu], es, t);
  }

  lemma InvSizes(m: Machine, stacks: seq<Stack>, saved: seq<Context>)
    requires SwitchInv(m, stacks, saved)
    ensures |stacks| == |saved| <= |m.stackPtr| && m.current < |stacks|
  {
  }

  lemma {:induction false} BehavesSplit(m: Machine, stacks: seq<Stack>, a: seq<Step>, b: seq<Step>)
    requires Behaves(m, stacks, a + b)
    ensures Behaves(m, stacks, a) && Behaves(ActAll(m, stacks, a), stacks, b)
    ensures ActAll(m, stacks, a + b) == ActAll(ActAll(m, stacks, a), stacks, b)
    decreases |a|
  {
    if a == [] {
      assert a + b == b;
    } else {
      assert (a + b)[0] == a[0] && (a + b)[1..] == a[1..] + b;
      BehavesSplit(Act(m, a[0]), stacks, a[1..], b);
    }
  }

  // ---------- a task that has never run ----------

  /** stackBase + stackWords, rounded down to 8 bytes. */
  function AlignedTop(k: Stack): nat {
    Top(k) - Top(k) % 2
  }

  function FirstHw(entry: Word): seq<Word> {
    [0x00000000, 0x01010101, 0x02020202, 0x03030303, 0x12121212, 0xFFFFFFFF, entry, 0x01000000]
  }

  function FirstSw(): seq<Word> {
    [0, 0, 0, 0, 0, 0, 0, 0]
  }

  lemma FrameWords(entry: Word)
    ensures |FirstSw()| == |FirstHw(entry)| == 8
  {
  }

  /** The registers a new task starts with. */
  function FirstContext(entry: Word, k: Stack): Context {
    Context(FirstHw(entry), FirstSw(), AlignedTop(k))
  }

  function FirstContexts(stacks: seq<Stack>, entries: seq<Word>): (r: seq<Context>)
    requires |stacks| == |entries|
    ensures |r| == |stacks| && forall t :: 0 <= t < |r| ==> r[t] == FirstContext(entries[t], stacks[t])
  {
    seq(|stacks|, t requires 0 <= t < |stacks| => FirstContext(entries[t], stacks[t]))
  }

  /** The canary and the frame that os_task_create leaves on the stack. */
  function NewStack(mem: seq<Word>, k: Stack, entry: Word): (r: seq<Word>)
    requires k.words >= 64 && Top(k) <= |mem|
    ensures |r| == |mem|
  {
    Store(Store(mem, k.base, [STACK_CANARY]), AlignedTop(k) - 16, FirstSw() + FirstHw(entry))
  }

  /** Building the first frame writes only the task's own stack, leaves the canary in
      place, and makes a frame from which the task starts at its entry point with its
      stack pointer at the aligned top. */
  lemma FirstFrame(mem: seq<Word>, k: Stack, entry: Word)
    requires k.words >= 64 && Top(k) <= |mem|
    ensures var r := NewStack(mem, k, entry);
            && FrameAt(r, AlignedTop(k) - 16, FirstContext(entry, k))
            && r[k.base] == 0xC0FFEE && k.base < AlignedTop(k) - 16
            && (forall i :: 0 <= i < |mem| && !In(k, i) ==> r[i] == mem[i])
            && FirstContext(entry, k).hw[PC] == entry && FirstContext(entry, k).psp % 2 == 0
            && Top(k) - 2 < FirstContext(entry, k).psp <= Top(k)
  {
  }

  /** The registers a task starts with: R0 to R3 and R12 hold bytes that tell them apart, LR
      is no address to return to, xPSR has the Thumb bit and nothing else, R4 to R11 are
      clear. */
  lemma FirstRegisters(entry: Word, k: Stack)
    ensures var c := FirstContext(entry, k);
            && |c.hw| == |c.sw| == 8
            && (forall n :: 0 <= n < 4 ==> c.hw[n] == n * 0x0101_0101) && c.hw[4] == 0x12 * 0x0101_0101
            && c.hw[5] == 0xFFFF_FFFF && c.hw[6] == entry && c.hw[7] == 0x0100_0000
            && (forall n :: 0 <= n < 8 ==> c.sw[n] == 0)
  {
  }

  /** os_start_first_task: PC is loaded from the frame and PSP set past it. */
  function StartFirst(m: Machine): (r: (Word, nat))
    requires m.current < |m.stackPtr| && m.stackPtr[m.current] + 16 <= |m.mem|
  {
    var sp := m.stackPtr[m.current];
    (m.mem[sp + 56 / 4], sp + 64 / 4)
  }

  /** It starts a new task just where PendSV would, with the same stack pointer. */
  lemma FirstStartAgrees(m: Machine, k: Stack, entry: Word)
    requires m.current < |m.stackPtr|
    requires FrameAt(m.mem, m.stackPtr[m.current], FirstContext(entry, k))
    ensures StartFirst(m) == (entry, AlignedTop(k))
    ensures var r := Leave(Restore(m)); StartFirst(m) == (r.cpu.hw[PC], r.cpu.psp)
  {
  }

  /** The first `n` tasks' stacks built one after another. */
  function Build(mem: seq<Word>, stacks: seq<Stack>, entries: seq<Word>, n: nat): (r: seq<Word>)
    requires n <= |stacks| == |entries| && Layout(stacks, |mem|)
    requires forall t :: 0 <= t < |stacks| ==> stacks[t].words >= 64
    ensures |r| == |mem|
  {
    if n == 0 then mem else NewStack(Build(mem, stacks, entries, n - 1), stacks[n - 1], entries[n - 1])
  }

  /** Task `t`'s stack is as os_task_create leaves it. */
  predicate Built(mem: seq<Word>, k: Stack, entry: Word) {
    && k.words >= 64 && Top(k) <= |mem| && mem[k.base] == STACK_CANARY
    && FrameAt(mem, AlignedTop(k) - 16, FirstContext(entry, k))
  }

  /** Building a stack keeps the frame and canary on any other. */
  lemma BuiltKept(mem: seq<Word>, a: Stack, entryA: Word, b: Stack, entryB: Word)
    requires Built(mem, a, entryA) && b.words >= 64 && Top(b) <= |mem| && (Apart(a, b) || Apart(b, a))
    ensures Built(NewStack(mem, b, entryB), a, entryA)
  {
    hide NewStack, FirstContext, Proper;
    FirstFrame(mem, b, entryB);
    FrameKept(mem, NewStack(mem, b, entryB), AlignedTop(a) - 16, FirstContext(entryA, a));
  }

  lemma OneMoreBuilt(mem: seq<Word>, stacks: seq<Stack>, entries: seq<Word>, n: nat)
    requires n < |stacks| == |entries| && Layout(stacks, |mem|) && stacks[n].words >= 64
    requires forall t :: 0 <= t < n ==> Built(mem, stacks[t], entries[t])
    ensures forall t :: 0 <= t <= n ==> Built(NewStack(mem, stacks[n], entries[n]), stacks[t], entries[t])
  {
    hide Built, NewStack, Apart;
    forall t | 0 <= t <= n
      ensures Built(NewStack(mem, stacks[n], entries[n]), stacks[t], entries[t])
    {
      if t == n {
        NewIsBuilt(mem, stacks[t], entries[t]);
      } else {
        BuiltKept(mem, stacks[t], entries[t], stacks[n], entries[n]);
      }
    }
  }

  /** So all stacks built one after another end up as each was built. */
  lemma {:induction false} BuildFrames(mem: seq<Word>, stacks: seq<Stack>, entries: seq<Word>, n: nat)
    requires n <= |stacks| == |entries| && Layout(stacks, |mem|)
    requires forall t :: 0 <= t < |stacks| ==> stacks[t].words >= 64
    ensures forall t :: 0 <= t < n ==> Built(Build(mem, stacks, entries, n), stacks[t], entries[t])
  {
    hide Built, NewStack, Layout;
    if n == 0 {
    } else {
      BuildFrames(mem, stacks, entries, n - 1);
      OneMoreBuilt(Build(mem, stacks, entries, n - 1), stacks, entries, n - 1);
    }
  }

  lemma NewIsBuilt(mem: seq<Word>, k: Stack, entry: Word)
    requires k.words >= 64 && Top(k) <= |mem|
    ensures Built(NewStack(mem, k, entry), k, entry)
  {
    hide NewStack;
    FirstFrame(mem, k, entry);
  }

  /** From stacks all built, and whichever task is current, the invariant that runs keep. */
  lemma BuiltStacks(m: Machine, stacks: seq<Stack>, entries: seq<Word>)
    requires |stacks| == |entries| <= |m.stackPtr| && m.current < |stacks| && Layout(stacks, |m.mem|)
    requires forall t :: 0 <= t < |stacks| ==>
               m.stackPtr[t] == AlignedTop(stacks[t]) - 16 && Built(m.mem, stacks[t], entries[t])
    ensures SwitchInv(m, stacks, FirstContexts(stacks, entries))
    ensures forall t :: 0 <= t < |stacks| ==> stacks[t].base < |m.mem| && m.mem[stacks[t].base] == STACK_CANARY
  {
    hide Built, FrameAt, FirstContext, AlignedTop, Layout, Top;
    forall t | 0 <= t < |stacks|
      ensures stacks[t].base < |m.mem| && m.mem[stacks[t].base] == STACK_CANARY && stacks[t].base < m.stackPtr[t]
      ensures FirstContext(entries[t], stacks[t]).psp <= Top(stacks[t])
      ensures FrameAt(m.mem, m.stackPtr[t], FirstContext(entries[t], stacks[t]))
    {
      BuiltFrame(m.mem, stacks[t], entries[t]);
    }
  }

  /** Building all stacks one after another leads there. */
  lemma FreshStacks(mem: seq<Word>, m: Machine, stacks: seq<Stack>, entries: seq<Word>)
    requires |stacks| == |entries| <= |m.stackPtr| && m.current < |stacks| && Layout(stacks, |mem|)
    requires forall t :: 0 <= t < |stacks| ==> stacks[t].words >= 64 && m.stackPtr[t] == AlignedTop(stacks[t]) - 16
    requires m.mem == Build(mem, stacks, entries, |stacks|)
    ensures SwitchInv(m, stacks, FirstContexts(stacks, entries))
    ensures forall t :: 0 <= t < |stacks| ==> stacks[t].base < |m.mem| && m.mem[stacks[t].base] == STACK_CANARY
  {
    hide Built, SwitchInv, AlignedTop, FirstContexts, Layout;
    BuildFrames(mem, stacks, entries, |stacks|);
    BuiltStacks(m, stacks, entries);
  }

  lemma BuiltFrame(mem: seq<Word>, k: Stack, entry: Word)
    requires Built(mem, k, entry)
    ensures k.base + 16 < AlignedTop(k) <= Top(k) && FirstContext(entry, k).psp <= Top(k)
    ensures mem[k.base] == STACK_CANARY && FrameAt(mem, AlignedTop(k) - 16, FirstContext(entry, k))
  {
  }

  // ---------- the code ----------

  function Below(w: Word, above: seq<Word>): (r: seq<Word>) {
    [w] + above
  }

  class Processor {
    const mem: array<Word>
    const stackPtr: array<nat>
    var hw: seq<Word>
    var sw: seq<Word>
    var psp: nat
    var current: nat

    function View(): Machine
      reads this, mem, stackPtr
    {
      Machine(mem[..], Context(hw, sw, psp), current, stackPtr[..])
    }

    predicate Separate()
      reads this
    {
      mem != stackPtr
    }

    /** STM: consecutive words, the lowest register at the lowest address. */
    method StoreMultiple(at: nat, ws: seq<Word>)
      requires at + |ws| <= mem.Length
      modifies mem
      ensures mem[..] == Store(old(mem[..]), at, ws)
    {
      forall i | 0 <= i < |ws| {
        mem[at + i] := ws[i];
      }
    }

    /** LDM. */
    method LoadMultiple(at: nat, n: nat) returns (ws: seq<Word>)
      requires at + n <= mem.Length
      ensures ws == Load(mem[..], at, n)
    {
      ws := mem[at..at + n];
    }

    method ExceptionEntry()
      requires Separate() && CanEnter(View())
      modifies this`psp, mem
      ensures View() == Enter(old(View()))
    {
      var pad := psp % 2;
      var sp := psp - 8 - pad;
      StoreMultiple(sp, Stacked(hw, pad));
      psp := sp;
    }

    method ExceptionReturn()
      requires Separate() && psp + 8 <= mem.Length
      modifies this`psp, this`hw
      ensures View() == Leave(old(View()))
    {
      var frame := LoadMultiple(psp, 8);
      var pad := AlignBit(frame[XPSR]);
      hw := frame[XPSR := frame[XPSR] - ALIGN_BIT * pad];
      psp := psp + 8;
      if psp % 2 == 0 {
        psp := psp + pad;
      }
    }

    /** The handler's first part: STMDB and the store to stackPtr.  PSP itself does not move. */
    method SaveContext()
      requires Separate() && current < stackPtr.Length && |sw| == 8 && 8 <= psp <= mem.Length
      modifies mem, stackPtr
      ensures View() == Save(old(View()))
    {
      hide Store;
      var r0 := psp - 8;
      StoreMultiple(r0, sw);
      stackPtr[current] := r0;
    }

    /** Its last part, for the task then current.  The handler works in R0 and R1, and the
        call of os_scheduler may overwrite every caller-saved register: `scratch` is what
        they are left with. */
    method RestoreContext(scratch: seq<Word>)
      requires Separate() && current < stackPtr.Length && stackPtr[current] + 8 <= mem.Length
      modifies this`psp, this`sw, this`hw
      ensures View() == Clobbered(Restore(old(View())), scratch)
    {
      hide Load;
      var r0 := stackPtr[current];
      sw := LoadMultiple(r0, 8);
      psp := r0 + 8;
      hw := scratch;
    }

    /** A switch up to the call of os_scheduler. */
    method SwitchOut()
      requires Separate() && CanEnter(View()) && current < stackPtr.Length && 8 <= Enter(View()).cpu.psp
      modifies this`psp, mem, stackPtr
      ensures View() == Save(Enter(old(View())))
    {
      ExceptionEntry();
      SaveContext();
    }

    /** And from its return, when it has made `next` current.  What the handler did to the
        caller-saved registers is lost: exception return loads them all. */
    method SwitchIn(next: nat, scratch: seq<Word>)
      requires Separate() && next < stackPtr.Length && stackPtr[next] + 16 <= mem.Length
      modifies this
      ensures View() == Leave(Restore(old(View()).(current := next)))
    {
      hide Store, Load;
      ghost var m := View();
      current := next;
      RestoreContext(scratch);
      ScratchIsLost(Restore(m.(current := next)), scratch);
      ExceptionReturn();
    }

    /** A switch as the outgoing and the incoming task see it. */
    method SwitchTask(next: nat, scratch: seq<Word>)
      requires Separate() && CanSwitch(View(), next)
      modifies this, mem, stackPtr
      ensures View() == SwitchTo(old(View()), next)
    {
      SwitchOut();
      SwitchIn(next, scratch);
    }

    /** os_start_first_task.  R0, R1 and R2 are its scratch registers: it leaves the new
        stack pointer, as a byte address, the entry point and CONTROL's value in them. */
    method StartFirstTask()
      requires Separate() && current < stackPtr.Length && stackPtr[current] + 16 <= mem.Length && |hw| == 8
      modifies this`psp, this`hw
      ensures var (entry, top) := StartFirst(old(View()));
              psp == top && hw == old(hw)[0 := 4 * top][1 := entry][2 := 2][PC := entry]
    {
      var r0 := stackPtr[current];
      var r1 := mem[r0 + 56 / 4];
      r0 := r0 + 64 / 4;
      psp := r0;
      hw := hw[0 := 4 * r0][1 := r1][2 := 2];
      hw := hw[PC := r1];
    }

    method Poke(at: nat, w: Word)
      requires at < mem.Length
      modifies mem
      ensures mem[..] == Store(old(mem[..]), at, [w])
    {
      mem[at] := w;
    }

    /** One push: the words from `stk` up were `above`, and now have `w` below them. */
    method Push(stk: nat, w: Word, ghost was: seq<Word>, ghost above: seq<Word>) returns (r: nat)
      requires 0 < stk && stk + |above| <= mem.Length == |was| && mem[..] == Store(was, stk, above)
      modifies mem
      ensures r == stk - 1 && mem[..] == Store(was, r, Below(w, above))
    {
      r := stk - 1;
      mem[r] := w;
    }

    /** The first eight pushes of os_task_init_stack. */
    method PushHardwareFrame(entry: Word, stackTop: nat) returns (stk: nat)
      requires 8 <= stackTop <= mem.Length
      modifies mem
      ensures stk == stackTop - 8
      ensures mem[..] == Store(old(mem[..]), stk, FirstHw(entry))
    {
      hide Store;
      ghost var was := mem[..];
      StoreNothing(was, stackTop);
      stk := Push(stackTop, 0x01000000, was, []);
      stk := Push(stk, entry, was, [0x01000000]);
      stk := Push(stk, 0xFFFFFFFF, was, [entry, 0x01000000]);
      stk := Push(stk, 0x12121212, was, [0xFFFFFFFF, entry, 0x01000000]);
      stk := Push(stk, 0x03030303, was, [0x12121212, 0xFFFFFFFF, entry, 0x01000000]);
      stk := Push(stk, 0x02020202, was, [0x03030303, 0x12121212, 0xFFFFFFFF, entry, 0x01000000]);
      stk := Push(stk, 0x01010101, was, [0x02020202, 0x03030303, 0x12121212, 0xFFFFFFFF, entry, 0x01000000]);
      stk := Push(stk, 0x00000000, was,
                  [0x01010101, 0x02020202, 0x03030303, 0x12121212, 0xFFFFFFFF, entry, 0x01000000]);
    }

    /** os_task_init_stack. */
    method InitFrame(entry: Word, stackTop: nat) returns (stk: nat)
      requires Separate() && 16 <= stackTop <= mem.Length
      modifies mem
      ensures stk == stackTop - 16 && stackPtr[..] == old(stackPtr[..])
      ensures mem[..] == Store(old(mem[..]), stackTop - 16, FirstSw() + FirstHw(entry))
    {
      hide Store;
      ghost var was := mem[..];
      stk := PushHardwareFrame(entry, stackTop);
      ghost var frame := FirstHw(entry);
      for i := 0 to 8
        invariant stk == stackTop - 8 - i && |frame| == 8 + i
        invariant frame == FirstSw()[..i] + FirstHw(entry) && mem[..] == Store(was, stk, frame)
      {
        stk := Push(stk, 0x00000000, was, frame);
        frame := Below(0x00000000, frame);
      }
      assert FirstSw()[..8] == FirstSw();
    }

    /** The stack part of os_task_create. */
    method InitStack(t: nat, base: nat, words: nat, entry: Word)
      requires Separate() && t < stackPtr.Length && words >= 64 && base + words <= mem.Length
      modifies mem, stackPtr
      ensures mem[..] == NewStack(old(mem[..]), Stack(base, words), entry)
      ensures stackPtr[..] == old(stackPtr[..])[t := AlignedTop(Stack(base, words)) - 16]
    {
      hide Store, FirstHw, FirstSw;
      FrameWords(entry);
      Poke(base, STACK_CANARY);
      var stackTop := base + words - (base + words) % 2;
      var stk := InitFrame(entry, stackTop);
      stackPtr[t] := stk;
    }
  }
}
