/** Threads over one hart: each thread leaves its own code by a trap and comes back to it as it
    left, whatever other threads do in between.

    Compiled code is arbitrary code: a thread's own code keeps out of every context and kernel
    stack, and a handler keeps to its own kernel stack below its trap frame, keeps `sepc` and
    `sstatus` but for what is modelled here, and has its stack pointer back at the frame when
    it returns to the trap routine. */
module ContextSwitch {
  import opened Machine

  datatype Layout = Layout(ctx: int, low: int, top: int)

  /** How a thread left its own code, and what it will find when it is back. */
  datatype View = View(regs: seq<int>, pc: int, mode: Mode, enabled: bool, ecall: bool, result: int)

  datatype Life =
    | Outside                        // running its own code
    | Inside(view: View)             // running in a handler
    | Parked(view: View, at: Cpu)    // in a handler, where `at` called `k_save_context`
    | Unborn(usrSp: int, mode: Mode) // created and never run

  datatype Symbols = Symbols(vector: int, tcbStart: int, runWrapper: int)

  datatype System = System(cpu: Cpu, current: nat, layout: map<nat, Layout>, life: map<nat, Life>, symbols: Symbols)

  datatype Event =
    | OwnCode(cpu: Cpu)
    | Trap(ecall: bool)
    | HandlerCode(cpu: Cpu)
    | SetResult(v: int)
    | DropToUser
    | Create(t: nat, l: Layout, usrSp: int)
    | SwitchTo(t: nat)
    | ExitTo(t: nat)
    | Return

  // ---------- memory ----------

  function FrameOf(l: Layout): int {
    l.top - FRAME_SIZE
  }

  predicate InContext(l: Layout, a: int) {
    l.ctx <= a < l.ctx + CONTEXT_SIZE
  }

  predicate Own(l: Layout, a: int) {
    InContext(l, a) || l.low <= a < l.top
  }

  predicate Fits(l: Layout) {
    l.low <= FrameOf(l) && (l.ctx + CONTEXT_SIZE <= l.low || l.top <= l.ctx)
  }

  ghost predicate Apart(l: Layout, l': Layout) {
    forall a :: Own(l, a) ==> !Own(l', a)
  }

  /** The two memories agree on what belongs to one thread. */
  ghost predicate Same(mem: Memory, mem': Memory, l: Layout) {
    forall a :: Own(l, a) ==> At(mem', a) == At(mem, a)
  }

  predicate Good(c: Cpu) {
    Wired(c) && c.regs[0] == 0
  }

  // ---------- what memory holds for each thread ----------

  /** The trap frame and the user stack pointer hold the thread's registers. */
  ghost predicate Framed(mem: Memory, l: Layout, v: View) {
    && |v.regs| == 32 && v.regs[0] == 0
    && (forall r :: 1 <= r < 32 && r != SP ==> At(mem, FrameOf(l) + 8 * FrameSlot(r)) == v.regs[r])
    && At(mem, l.ctx + USR_SP_SLOT) == v.regs[SP]
    && (v.ecall ==> At(mem, l.ctx + A0_SLOT) == v.result)
  }

  /** `sepc` and `sstatus` will lead back to the thread's own code. */
  predicate LeadsBack(c: Cpu, v: View) {
    c.sepc == v.pc && Spp(c.sstatus) == (v.mode == Supervisor) && Spie(c.sstatus) == v.enabled
  }

  predicate OnStack(l: Layout, c: Cpu)
    requires Wired(c)
  {
    l.low <= c.regs[SP] <= FrameOf(l)
  }

  /** The context holds every register but a0 as `k_save_context` found it. */
  ghost predicate InSlots(mem: Memory, l: Layout, c: Cpu)
    requires Wired(c)
  {
    && At(mem, l.ctx + RA_SLOT) == c.regs[RA]
    && (forall r :: 2 <= r < 32 && r != A0 ==> At(mem, l.ctx + SYS_SP_SLOT + 8 * ContextSlot(r)) == c.regs[r])
    && At(mem, l.ctx + SEPC_SLOT) == c.sepc && At(mem, l.ctx + SSTATUS_SLOT) == c.sstatus
  }

  ghost predicate StackKept(mem: Memory, l: Layout, c: Cpu)
    requires Wired(c)
  {
    forall a :: c.regs[SP] <= a < l.top ==> At(mem, a) == At(c.mem, a)
  }

  ghost predicate LifeOk(mem: Memory, l: Layout, life: Life, symbols: Symbols) {
    match life
    case Outside => At(mem, l.ctx + SYS_SP_SLOT) == l.top
    case Inside(v) => Framed(mem, l, v)
    case Parked(v, at) =>
      && Framed(mem, l, v)
      && Good(at) && OnStack(l, at) && LeadsBack(at, v) && InSlots(mem, l, at) && StackKept(mem, l, at)
    case Unborn(usrSp, mode) =>
      && At(mem, l.ctx + RA_SLOT) == symbols.tcbStart
      && At(mem, l.ctx + USR_SP_SLOT) == usrSp && At(mem, l.ctx + SYS_SP_SLOT) == l.top
      && At(mem, l.ctx + TP_SLOT) == 0
      && var sstatus := At(mem, l.ctx + SSTATUS_SLOT);
         Spie(sstatus) && Spp(sstatus) == (mode == Supervisor)
  }

  lemma LifeKept(mem: Memory, mem': Memory, l: Layout, life: Life, symbols: Symbols)
    requires LifeOk(mem, l, life, symbols) && Same(mem, mem', l) && Fits(l)
    ensures LifeOk(mem', l, life, symbols)
  {
    assert Own(l, l.ctx + RA_SLOT) && Own(l, l.ctx + USR_SP_SLOT) && Own(l, l.ctx + SYS_SP_SLOT);
    assert Own(l, l.ctx + A0_SLOT) && Own(l, l.ctx + SEPC_SLOT) && Own(l, l.ctx + SSTATUS_SLOT);
    assert Own(l, l.ctx + TP_SLOT);
    if !life.Outside? && !life.Unborn? {
      forall r | 1 <= r < 32 && r != SP
        ensures Own(l, FrameOf(l) + 8 * FrameSlot(r))
      {
      }
      forall r | 2 <= r < 32
        ensures Own(l, l.ctx + SYS_SP_SLOT + 8 * ContextSlot(r))
      {
      }
    }
  }

  // ---------- the invariant ----------

  ghost predicate Apartness(layout: map<nat, Layout>) {
    && (forall t :: t in layout ==> Fits(layout[t]))
    && (forall t, u :: t in layout && u in layout && t != u ==> Apart(layout[t], layout[u]))
  }

  ghost predicate Inv(s: System) {
    && Good(s.cpu) && Apartness(s.layout) && s.life.Keys == s.layout.Keys && s.current in s.life
    && s.cpu.kcc == s.layout[s.current].ctx
    && (forall t :: t in s.life ==> (s.life[t].Outside? || s.life[t].Inside? <==> t == s.current))
    && (forall t :: t in s.life ==> LifeOk(s.cpu.mem, s.layout[t], s.life[t], s.symbols))
    && (s.life[s.current].Inside? ==>
          s.cpu.mode == Supervisor && LeadsBack(s.cpu, s.life[s.current].view) && OnStack(s.layout[s.current], s.cpu))
  }

  // ---------- the steps ----------

  /** How the thread on the hart is about to be found again. */
  function ViewOf(c: Cpu, ecall: bool): View {
    View(c.regs, if ecall then c.pc + INSTRUCTION_SIZE else c.pc, c.mode, Sie(c.sstatus), ecall, FAILED_SYSCALL)
  }

  /** A trap up to the handler; the one for calls first steps over the `ecall`. */
  function Begin(c: Cpu, ecall: bool, vector: int): Cpu
    requires Wired(c)
  {
    var c' := Enter(c, vector);
    if ecall then c'.(sepc := c'.sepc + INSTRUCTION_SIZE, mem := c'.mem[c'.kcc + A0_SLOT := FAILED_SYSCALL]) else c'
  }

  /** The call `k_save_context(&context)`. */
  function Save(c: Cpu): Cpu
    requires Wired(c)
  {
    SaveContext(c.(regs := c.regs[A0 := c.kcc]), c.kcc)
  }

  /** `k_current_context = &context` and the call `k_restore_context(&context)`. */
  function Restore(c: Cpu, ctx: int): Cpu
    requires Wired(c)
  {
    RestoreContext(c.(regs := c.regs[A0 := ctx], kcc := ctx), ctx)
  }

  /** What `create_tcb` writes into the context of the new thread. */
  function NewContext(c: Cpu, l: Layout, usrSp: int, tcbStart: int): Memory {
    c.mem[l.ctx + USR_SP_SLOT := usrSp][l.ctx + SYS_SP_SLOT := l.top][l.ctx + TP_SLOT := 0]
      [l.ctx + SSTATUS_SLOT := WithSpie(c.sstatus, true)][l.ctx + RA_SLOT := tcbStart]
  }

  predicate InKernel(s: System) {
    s.current in s.life && s.life[s.current].Inside? && s.current in s.layout
  }

  ghost predicate Enabled(s: System, e: Event) {
    match e
    case OwnCode(c) =>
      && s.current in s.life && s.life[s.current].Outside? && Good(c) && c.kcc == s.cpu.kcc && c.mode == s.cpu.mode
      && forall t :: t in s.layout ==> Same(s.cpu.mem, c.mem, s.layout[t])
    case Trap(_) => s.current in s.life && s.life[s.current].Outside? && Wired(s.cpu)
    case HandlerCode(c) =>
      && InKernel(s) && Good(c)
      && c.(regs := s.cpu.regs, pc := s.cpu.pc, sscratch := s.cpu.sscratch, mem := s.cpu.mem) == s.cpu
      && OnStack(s.layout[s.current], c)
      && (forall t :: t in s.layout && t != s.current ==> Same(s.cpu.mem, c.mem, s.layout[t]))
      && OnlyBelowFrame(s.cpu.mem, c.mem, s.layout[s.current])
    case SetResult(_) => InKernel(s)
    case DropToUser => InKernel(s)
    case Create(t, l, _) =>
      InKernel(s) && t !in s.layout && t !in s.life && Fits(l)
      && forall u :: u in s.layout ==> Apart(l, s.layout[u]) && Apart(s.layout[u], l)
    case SwitchTo(t) => InKernel(s) && t in s.life && t in s.layout && Wired(s.cpu)
    case ExitTo(t) => InKernel(s) && t in s.life && t in s.layout && t != s.current && Wired(s.cpu)
    case Return =>
      InKernel(s) && Wired(s.cpu) && s.cpu.regs[SP] == FrameOf(s.layout[s.current])
  }

  /** A handler writes its own context and the stack from its frame on only as modelled here. */
  ghost predicate OnlyBelowFrame(mem: Memory, mem': Memory, l: Layout) {
    forall a :: InContext(l, a) || FrameOf(l) <= a < l.top ==> At(mem', a) == At(mem, a)
  }

  /** `t` gets the hart; `c` is as it was when the thread before it was put away. */
  function Resume(s: System, c: Cpu, t: nat): System
    requires Wired(c) && t in s.layout && t in s.life
  {
    var c' := Restore(c, s.layout[t].ctx);
    match s.life[t]
    case Parked(v, _) => s.(cpu := c', current := t, life := s.life[t := Inside(v)])
    case Unborn(_, _) => s.(cpu := StartThread(c', s.symbols.runWrapper), current := t, life := s.life[t := Outside])
    case _ => s.(cpu := c', current := t)
  }

  ghost function Step(s: System, e: Event): System
    requires Enabled(s, e)
  {
    var me := s.current;
    match e
    case OwnCode(c) => s.(cpu := c)
    case Trap(ecall) =>
      s.(cpu := Begin(s.cpu, ecall, s.symbols.vector), life := s.life[me := Inside(ViewOf(s.cpu, ecall))])
    case HandlerCode(c) => s.(cpu := c)
    case SetResult(v) =>
      s.(cpu := s.cpu.(mem := s.cpu.mem[s.cpu.kcc + A0_SLOT := v]),
         life := s.life[me := Inside(s.life[me].view.(result := v))])
    case DropToUser =>
      s.(cpu := s.cpu.(sstatus := WithSpp(s.cpu.sstatus, false)),
         life := s.life[me := Inside(s.life[me].view.(mode := User))])
    case Create(t, l, usrSp) =>
      s.(cpu := s.cpu.(mem := NewContext(s.cpu, l, usrSp, s.symbols.tcbStart)), layout := s.layout[t := l],
         life := s.life[t := Unborn(usrSp, s.life[me].view.mode)])
    case SwitchTo(t) => Resume(s.(life := s.life[me := Parked(s.life[me].view, s.cpu)]), Save(s.cpu), t)
    case ExitTo(t) => Resume(s.(life := s.life - {me}, layout := s.layout - {me}), s.cpu, t)
    case Return => s.(cpu := Leave(s.cpu, s.life[me].view.ecall), life := s.life[me := Outside])
  }

  // ---------- what each piece of assembly leaves behind ----------

  /** Nothing outside what belongs to one thread was written. */
  ghost predicate Only(mem: Memory, mem': Memory, l: Layout) {
    forall a :: !Own(l, a) ==> At(mem', a) == At(mem, a)
  }

  lemma OthersSame(mem: Memory, mem': Memory, l: Layout, l': Layout)
    requires Only(mem, mem', l) && Apart(l', l)
    ensures Same(mem, mem', l')
  {
  }

  lemma EnterEffect(c: Cpu, l: Layout, vector: int)
    requires Good(c) && c.kcc == l.ctx && Fits(l) && At(c.mem, l.ctx + SYS_SP_SLOT) == l.top
    ensures var c' := Enter(c, vector);
      && Good(c') && c'.kcc == c.kcc && c'.mode == Supervisor && c'.regs[SP] == FrameOf(l)
      && c'.sepc == c.pc && Spp(c'.sstatus) == (c.mode == Supervisor) && Spie(c'.sstatus) == Sie(c.sstatus)
      && Only(c.mem, c'.mem, l) && At(c'.mem, l.ctx + USR_SP_SLOT) == c.regs[SP]
      && forall r :: 1 <= r < 32 && r != SP ==> At(c'.mem, FrameOf(l) + 8 * FrameSlot(r)) == c.regs[r]
  {
    SpieUnderSpp(WithSpie(WithSie(c.sstatus, false), Sie(c.sstatus)), c.mode == Supervisor);
    PushEffect(ToKernelStack(TakeTrap(c, vector)), l);
  }

  lemma PushEffect(c: Cpu, l: Layout)
    requires Wired(c) && Fits(l) && c.regs[SP] == l.top
    ensures var c' := PushRegisters(c);
      && c' == c.(mem := c'.mem, regs := c.regs[SP := FrameOf(l)])
      && (forall a :: !(FrameOf(l) <= a < l.top) ==> At(c'.mem, a) == At(c.mem, a))
      && forall r :: 1 <= r < 32 && r != SP ==> At(c'.mem, FrameOf(l) + 8 * FrameSlot(r)) == c.regs[r]
  {
    TablesFit();
    var values := Pick(c.regs, FRAME);
    StoredAt(c.mem, FrameOf(l), values);
    forall r | 1 <= r < 32 && r != SP
      ensures At(PushRegisters(c).mem, FrameOf(l) + 8 * FrameSlot(r)) == c.regs[r]
    {
      FrameComplete(r);
      assert values[FrameSlot(r)] == c.regs[r];
    }
    forall a | !(FrameOf(l) <= a < l.top)
      ensures At(PushRegisters(c).mem, a) == At(c.mem, a)
    {
      assert !Covers(FrameOf(l), 30, a);
    }
  }

  /** `k_save_context` returns 0, with everything else as it was, and the context filled. */
  lemma SaveEffect(c: Cpu, l: Layout)
    requires Good(c) && c.kcc == l.ctx && Fits(l)
    ensures var c' := Save(c);
      && c' == c.(mem := c'.mem, regs := c.regs[A0 := 0], pc := c.regs[RA])
      && InSlots(c'.mem, l, c) && (forall a :: !InContext(l, a) ==> At(c'.mem, a) == At(c.mem, a))
      && At(c'.mem, l.ctx + USR_SP_SLOT) == At(c.mem, l.ctx + USR_SP_SLOT)
      && At(c'.mem, l.ctx + A0_SLOT) == At(c.mem, l.ctx + A0_SLOT)
  {
    TablesFit();
    var c1 := c.(regs := c.regs[A0 := l.ctx]);
    var values := Pick(c1.regs, CONTEXT);
    var base := l.ctx + SYS_SP_SLOT;
    StoredAt(c1.mem[l.ctx + RA_SLOT := c1.regs[RA]], base, values);
    assert !Covers(base, 29, l.ctx + RA_SLOT) && !Covers(base, 29, l.ctx + USR_SP_SLOT);
    assert !Covers(base, 29, l.ctx + A0_SLOT);
    forall a | !InContext(l, a)
      ensures At(Save(c).mem, a) == At(c.mem, a)
    {
      assert !Covers(base, 29, a);
    }
    forall r | 2 <= r < 32 && r != A0
      ensures At(Save(c).mem, l.ctx + SYS_SP_SLOT + 8 * ContextSlot(r)) == c.regs[r]
    {
      ContextComplete(r);
      assert values[ContextSlot(r)] == c.regs[r];
    }
  }

  /** `k_restore_context` returns where `at` called `k_save_context`, with all its registers,
      but with a result that is not 0. */
  lemma RestoreEffect(c: Cpu, l: Layout, at: Cpu)
    requires Good(c) && Good(at) && InSlots(c.mem, l, at)
    ensures RESTORED != 0
    ensures var c' := Restore(c, l.ctx);
      c' == c.(regs := at.regs[A0 := RESTORED], pc := at.regs[RA], sepc := at.sepc, sstatus := at.sstatus, kcc := l.ctx)
  {
    TablesFit();
    ContextDistinct();
    var first := c.regs[A0 := l.ctx][RA := at.regs[RA]];
    var loaded := LoadAll(first, CONTEXT, c.mem, l.ctx + SYS_SP_SLOT);
    LoadedAt(first, CONTEXT, c.mem, l.ctx + SYS_SP_SLOT);
    NoA0In();
    NoRaIn();
    forall r | 0 <= r < 32 && r != A0
      ensures loaded[r] == at.regs[r]
    {
      if r >= 2 { ContextComplete(r); }
    }
    assert loaded[A0 := RESTORED] == at.regs[A0 := RESTORED];
  }

  lemma NoRaIn()
    ensures forall i :: 0 <= i < |CONTEXT| ==> CONTEXT[i] != RA && CONTEXT[i] != 0
  {
  }

  /** The end of a trap: the thread finds every register as it left it, a0 its result after a call. */
  lemma LeaveEffect(c: Cpu, l: Layout, v: View)
    requires Good(c) && c.kcc == l.ctx && Fits(l) && c.regs[SP] == FrameOf(l) && Framed(c.mem, l, v) && LeadsBack(c, v)
    ensures var c' := Leave(c, v.ecall);
      && Good(c') && c'.kcc == c.kcc && c'.regs == (if v.ecall then v.regs[A0 := v.result] else v.regs)
      && c'.pc == v.pc && c'.mode == v.mode && Sie(c'.sstatus) == v.enabled
      && Only(c.mem, c'.mem, l) && At(c'.mem, l.ctx + SYS_SP_SLOT) == l.top
  {
    TablesFit();
    FrameDistinct();
    LoadedAt(c.regs, FRAME, c.mem, FrameOf(l));
    NoStackPointerIn();
    var popped := LoadAll(c.regs, FRAME, c.mem, FrameOf(l));
    forall r | 1 <= r < 32 && r != SP
      ensures popped[r] == v.regs[r]
    {
      FrameComplete(r);
    }
    SretEnables(c.sstatus);
    assert popped[0] == c.regs[0] by { NoZeroIn(); }
    assert Leave(c, v.ecall).regs == if v.ecall then v.regs[A0 := v.result] else v.regs;
  }

  /** A thread that has never run starts at `k_tcb_run_wrapper`, on its own user stack, with
      interrupts enabled and in the mode of its creator. */
  lemma StartEffect(c: Cpu, l: Layout, usrSp: int, mode: Mode, symbols: Symbols)
    requires Good(c) && Fits(l) && LifeOk(c.mem, l, Unborn(usrSp, mode), symbols)
    ensures Restore(c, l.ctx).pc == symbols.tcbStart
    ensures var c' := StartThread(Restore(c, l.ctx), symbols.runWrapper);
      && Good(c') && c'.kcc == l.ctx && c'.pc == symbols.runWrapper && c'.regs[SP] == usrSp
      && c'.regs[TP] == 0 && c'.mode == mode && Sie(c'.sstatus)
      && Only(c.mem, c'.mem, l) && At(c'.mem, l.ctx + SYS_SP_SLOT) == l.top
  {
    FromContext(c, l);
    SretEnables(Restore(c, l.ctx).sstatus);
  }

  /** What a restored context has in the registers that a new thread needs. */
  lemma FromContext(c: Cpu, l: Layout)
    requires Good(c)
    ensures var c' := Restore(c, l.ctx);
      && Good(c') && c'.regs[RA] == At(c.mem, l.ctx + RA_SLOT) && c'.pc == c'.regs[RA]
      && c'.regs[SP] == At(c.mem, l.ctx + SYS_SP_SLOT) && c'.regs[TP] == At(c.mem, l.ctx + TP_SLOT)
  {
    TablesFit();
    ContextDistinct();
    var first := c.regs[A0 := l.ctx][RA := At(c.mem, l.ctx + RA_SLOT)];
    LoadedAt(first, CONTEXT, c.mem, l.ctx + SYS_SP_SLOT);
    NoA0In();
    NoRaIn();
    assert CONTEXT[0] == SP && CONTEXT[2] == TP;
  }

  lemma SretEnables(word: int)
    ensures var word' := WithSpp(WithSpie(WithSie(word, Spie(word)), true), false);
      Sie(word') == Spie(word)
  {
    var enabled := WithSie(word, Spie(word));
    SieUnderSpie(enabled, true);
    SieUnderSpp(WithSpie(enabled, true), false);
  }

  lemma NoZeroIn()
    ensures forall i :: 0 <= i < |FRAME| ==> FRAME[i] != 0
  {
  }

  // ---------- every step keeps the invariant ----------

  ghost predicate AllOk(mem: Memory, layout: map<nat, Layout>, life: map<nat, Life>, symbols: Symbols) {
    forall t :: t in life && t in layout ==> LifeOk(mem, layout[t], life[t], symbols)
  }

  lemma OthersKept(s: System, mem': Memory, me: nat, life': Life)
    requires Apartness(s.layout) && AllOk(s.cpu.mem, s.layout, s.life, s.symbols)
    requires me in s.layout && me in s.life && Only(s.cpu.mem, mem', s.layout[me])
    requires LifeOk(mem', s.layout[me], life', s.symbols)
    ensures AllOk(mem', s.layout, s.life[me := life'], s.symbols)
  {
    forall t | t in s.life && t in s.layout && t != me
      ensures LifeOk(mem', s.layout[t], s.life[t], s.symbols)
    {
      OthersSame(s.cpu.mem, mem', s.layout[me], s.layout[t]);
      LifeKept(s.cpu.mem, mem', s.layout[t], s.life[t], s.symbols);
    }
  }

  lemma OwnCodeInv(s: System, c: Cpu)
    requires Inv(s) && Enabled(s, OwnCode(c))
    ensures Inv(Step(s, OwnCode(c)))
  {
    forall t | t in s.life
      ensures LifeOk(c.mem, s.layout[t], s.life[t], s.symbols)
    {
      LifeKept(s.cpu.mem, c.mem, s.layout[t], s.life[t], s.symbols);
    }
  }

  /** The thread on the hart does something to its own memory only. */
  ghost predicate Moves(s: System, c: Cpu, l: Layout, life': Life) {
    && Good(c) && c.kcc == l.ctx && Only(s.cpu.mem, c.mem, l) && LifeOk(c.mem, l, life', s.symbols)
    && (life'.Outside? ||
        (life'.Inside? && c.mode == Supervisor && LeadsBack(c, life'.view) && OnStack(l, c)))
  }

  lemma MoveInv(s: System, c: Cpu, life': Life)
    requires Inv(s) && Moves(s, c, s.layout[s.current], life')
    ensures Inv(s.(cpu := c, life := s.life[s.current := life']))
  {
    OthersKept(s, c.mem, s.current, life');
  }

  lemma TrapInv(s: System, ecall: bool)
    requires Inv(s) && Enabled(s, Trap(ecall))
    ensures Inv(Step(s, Trap(ecall)))
  {
    BeginFrame(s.cpu, s.layout[s.current], ecall, s.symbols.vector);
    MoveInv(s, Begin(s.cpu, ecall, s.symbols.vector), Inside(ViewOf(s.cpu, ecall)));
  }

  lemma BeginFrame(c: Cpu, l: Layout, ecall: bool, vector: int)
    requires Good(c) && c.kcc == l.ctx && Fits(l) && At(c.mem, l.ctx + SYS_SP_SLOT) == l.top
    ensures var c' := Begin(c, ecall, vector);
      && Good(c') && c'.kcc == c.kcc && c'.mode == Supervisor && OnStack(l, c') && LeadsBack(c', ViewOf(c, ecall))
      && Only(c.mem, c'.mem, l) && Framed(c'.mem, l, ViewOf(c, ecall))
  {
    EnterEffect(c, l, vector);
  }

  lemma HandlerCodeInv(s: System, c: Cpu)
    requires Inv(s) && Enabled(s, HandlerCode(c))
    ensures Inv(Step(s, HandlerCode(c)))
  {
    var me := s.current;
    forall t | t in s.life
      ensures LifeOk(c.mem, s.layout[t], s.life[t], s.symbols)
    {
      if t == me {
        FramedKept(s.cpu.mem, c.mem, s.layout[me], s.life[me].view);
      } else {
        LifeKept(s.cpu.mem, c.mem, s.layout[t], s.life[t], s.symbols);
      }
    }
  }

  lemma FramedKept(mem: Memory, mem': Memory, l: Layout, v: View)
    requires Framed(mem, l, v) && OnlyBelowFrame(mem, mem', l)
    ensures Framed(mem', l, v)
  {
    assert InContext(l, l.ctx + USR_SP_SLOT) && InContext(l, l.ctx + A0_SLOT);
  }

  lemma SetResultInv(s: System, v: int)
    requires Inv(s) && Enabled(s, SetResult(v))
    ensures Inv(Step(s, SetResult(v)))
  {
    var view, a := s.life[s.current].view, s.cpu.kcc + A0_SLOT;
    CurrentFramed(s);
    ResultFrame(s.cpu.mem, s.layout[s.current], view, a, v);
    ResultInv(s, v, s.cpu.mem[a := v], view.(result := v));
  }

  lemma ResultInv(s: System, v: int, mem': Memory, view: View)
    requires Inv(s) && Enabled(s, SetResult(v)) && Framed(mem', s.layout[s.current], view)
    requires mem' == s.cpu.mem[s.cpu.kcc + A0_SLOT := v] && Only(s.cpu.mem, mem', s.layout[s.current])
    requires view == s.life[s.current].view.(result := v)
    ensures Inv(Step(s, SetResult(v)))
  {
    StepIsMemory(s, v, mem', view);
    MemoryInv(s, mem', view);
  }

  lemma StepIsMemory(s: System, v: int, mem': Memory, view: View)
    requires Enabled(s, SetResult(v)) && mem' == s.cpu.mem[s.cpu.kcc + A0_SLOT := v]
    requires view == s.life[s.current].view.(result := v)
    ensures Step(s, SetResult(v)) == s.(cpu := s.cpu.(mem := mem'), life := s.life[s.current := Inside(view)])
  {
  }

  lemma CurrentFramed(s: System)
    requires Inv(s) && InKernel(s)
    ensures var l := s.layout[s.current]; Fits(l) && s.cpu.kcc == l.ctx && Framed(s.cpu.mem, l, s.life[s.current].view)
  {
    assert LifeOk(s.cpu.mem, s.layout[s.current], s.life[s.current], s.symbols);
  }

  /** Only memory changes, in a way that the frame survives. */
  lemma MemoryInv(s: System, mem': Memory, view: View)
    requires Inv(s) && InKernel(s)
    requires Only(s.cpu.mem, mem', s.layout[s.current]) && Framed(mem', s.layout[s.current], view)
    requires view.(result := s.life[s.current].view.result) == s.life[s.current].view
    ensures Inv(s.(cpu := s.cpu.(mem := mem'), life := s.life[s.current := Inside(view)]))
  {
    MoveInv(s, s.cpu.(mem := mem'), Inside(view));
  }

  lemma ResultFrame(mem: Memory, l: Layout, view: View, a: int, v: int)
    requires Framed(mem, l, view) && Fits(l) && a == l.ctx + A0_SLOT
    ensures Only(mem, mem[a := v], l) && Framed(mem[a := v], l, view.(result := v))
  {
    assert Own(l, a);
  }

  lemma DropToUserInv(s: System)
    requires Inv(s) && Enabled(s, DropToUser)
    ensures Inv(Step(s, DropToUser))
  {
    var view := s.life[s.current].view;
    SpieUnderSpp(s.cpu.sstatus, false);
    assert LifeOk(s.cpu.mem, s.layout[s.current], Inside(view), s.symbols);
    MoveInv(s, s.cpu.(sstatus := WithSpp(s.cpu.sstatus, false)), Inside(view.(mode := User)));
  }

  lemma CreateInv(s: System, t: nat, l: Layout, usrSp: int)
    requires Inv(s) && Enabled(s, Create(t, l, usrSp))
    ensures Inv(Step(s, Create(t, l, usrSp)))
  {
    var mem' := NewContext(s.cpu, l, usrSp, s.symbols.tcbStart);
    NewContextOk(s.cpu, l, usrSp, s.symbols, s.life[s.current].view);
    forall u | u in s.life
      ensures LifeOk(mem', s.layout[u], s.life[u], s.symbols)
    {
      OthersSame(s.cpu.mem, mem', l, s.layout[u]);
      LifeKept(s.cpu.mem, mem', s.layout[u], s.life[u], s.symbols);
    }
  }

  lemma NewContextOk(c: Cpu, l: Layout, usrSp: int, symbols: Symbols, v: View)
    requires LeadsBack(c, v)
    ensures var mem' := NewContext(c, l, usrSp, symbols.tcbStart);
      Only(c.mem, mem', l) && LifeOk(mem', l, Unborn(usrSp, v.mode), symbols)
  {
    SppOverSpie(c.sstatus, true);
    assert Own(l, l.ctx + RA_SLOT) && Own(l, l.ctx + USR_SP_SLOT) && Own(l, l.ctx + SYS_SP_SLOT);
    assert Own(l, l.ctx + TP_SLOT) && Own(l, l.ctx + SSTATUS_SLOT);
  }

  lemma ReturnInv(s: System)
    requires Inv(s) && Enabled(s, Return)
    ensures Inv(Step(s, Return))
  {
    var l, v := s.layout[s.current], s.life[s.current].view;
    assert LifeOk(s.cpu.mem, l, Inside(v), s.symbols);
    ReturnMoves(s, l, v);
    MoveInv(s, Leave(s.cpu, v.ecall), Outside);
  }

  lemma ReturnMoves(s: System, l: Layout, v: View)
    requires Good(s.cpu) && s.cpu.kcc == l.ctx && Fits(l) && s.cpu.regs[SP] == FrameOf(l)
    requires Framed(s.cpu.mem, l, v) && LeadsBack(s.cpu, v)
    ensures Moves(s, Leave(s.cpu, v.ecall), l, Outside)
  {
    LeaveEffect(s.cpu, l, v);
  }

  // ---------- the switch ----------

  /** Between putting one thread away and restoring the next. */
  ghost predicate Idle(s: System, c: Cpu) {
    && Good(c) && c.mode == Supervisor && Apartness(s.layout) && s.life.Keys == s.layout.Keys
    && (forall t :: t in s.life ==> s.life[t].Parked? || s.life[t].Unborn?)
    && AllOk(c.mem, s.layout, s.life, s.symbols)
  }

  lemma ParkIdle(s: System)
    requires Inv(s) && InKernel(s)
    ensures Idle(s.(life := s.life[s.current := Parked(s.life[s.current].view, s.cpu)]), Save(s.cpu))
  {
    var l, v := s.layout[s.current], s.life[s.current].view;
    assert LifeOk(s.cpu.mem, l, Inside(v), s.symbols);
    ParkedOk(s.cpu, l, v, s.symbols);
    OthersKept(s, Save(s.cpu).mem, s.current, Parked(v, s.cpu));
  }

  lemma ParkedOk(c: Cpu, l: Layout, v: View, symbols: Symbols)
    requires Good(c) && c.kcc == l.ctx && Fits(l) && OnStack(l, c) && LeadsBack(c, v) && Framed(c.mem, l, v)
    ensures Only(c.mem, Save(c).mem, l) && LifeOk(Save(c).mem, l, Parked(v, c), symbols)
    ensures Good(Save(c)) && Save(c).mode == c.mode
  {
    SaveEffect(c, l);
  }

  lemma DropIdle(s: System)
    requires Inv(s) && InKernel(s)
    ensures Idle(s.(life := s.life - {s.current}, layout := s.layout - {s.current}), s.cpu)
  {
  }

  lemma ResumeInv(s: System, c: Cpu, t: nat)
    requires Idle(s, c) && t in s.life
    ensures Inv(Resume(s, c, t))
  {
    if s.life[t].Parked? {
      ParkedResumes(s, c, t);
    } else {
      UnbornResumes(s, c, t);
    }
  }

  lemma ParkedResumes(s: System, c: Cpu, t: nat)
    requires Idle(s, c) && t in s.life && s.life[t].Parked?
    ensures Inv(Resume(s, c, t))
  {
    var v, at := s.life[t].view, s.life[t].at;
    assert LifeOk(c.mem, s.layout[t], Parked(v, at), s.symbols);
    RestoreEffect(c, s.layout[t], at);
    ResumedInv(s, c, Restore(c, s.layout[t].ctx), t, Inside(v));
  }

  lemma ResumedInv(s: System, c: Cpu, c': Cpu, t: nat, life': Life)
    requires Idle(s, c) && t in s.life && Moves(s.(cpu := c), c', s.layout[t], life')
    ensures Inv(s.(cpu := c', current := t, life := s.life[t := life']))
  {
    OthersKept(s.(cpu := c), c'.mem, t, life');
  }

  lemma UnbornResumes(s: System, c: Cpu, t: nat)
    requires Idle(s, c) && t in s.life && s.life[t].Unborn?
    ensures Inv(Resume(s, c, t))
  {
    var l := s.layout[t];
    assert LifeOk(c.mem, l, s.life[t], s.symbols);
    StartMoves(s.(cpu := c), l, s.life[t].usrSp, s.life[t].mode);
    ResumedInv(s, c, StartThread(Restore(c, l.ctx), s.symbols.runWrapper), t, Outside);
  }

  lemma StartMoves(s: System, l: Layout, usrSp: int, mode: Mode)
    requires Good(s.cpu) && Fits(l) && LifeOk(s.cpu.mem, l, Unborn(usrSp, mode), s.symbols)
    ensures Moves(s, StartThread(Restore(s.cpu, l.ctx), s.symbols.runWrapper), l, Outside)
  {
    StartEffect(s.cpu, l, usrSp, mode, s.symbols);
  }

  /** Once `main` has set its kernel stack: the main thread alone, in its own code. */
  function Booted(c: Cpu, main: nat, l: Layout, symbols: Symbols): System {
    System(c.(kcc := l.ctx, mem := c.mem[l.ctx + SYS_SP_SLOT := l.top]),
           main, map[main := l], map[main := Outside], symbols)
  }

  lemma BootedInv(c: Cpu, main: nat, l: Layout, symbols: Symbols)
    requires Good(c) && Fits(l)
    ensures Inv(Booted(c, main, l, symbols))
  {
    var s := Booted(c, main, l, symbols);
    assert LifeOk(s.cpu.mem, l, Outside, symbols);
  }

  /** Every step keeps the invariant. */
  lemma StepInv(s: System, e: Event)
    requires Inv(s) && Enabled(s, e)
    ensures Inv(Step(s, e))
  {
    match e
    case OwnCode(c) => OwnCodeInv(s, c);
    case Trap(ecall) => TrapInv(s, ecall);
    case HandlerCode(c) => HandlerCodeInv(s, c);
    case SetResult(v) => SetResultInv(s, v);
    case DropToUser => DropToUserInv(s);
    case Create(t, l, usrSp) => CreateInv(s, t, l, usrSp);
    case SwitchTo(t) => SwitchInv(s, t);
    case ExitTo(t) => ExitInv(s, t);
    case Return => ReturnInv(s);
  }

  lemma SwitchInv(s: System, t: nat)
    requires Inv(s) && Enabled(s, SwitchTo(t))
    ensures Inv(Step(s, SwitchTo(t)))
  {
    ParkIdle(s);
    ResumeInv(s.(life := s.life[s.current := Parked(s.life[s.current].view, s.cpu)]), Save(s.cpu), t);
  }

  lemma ExitInv(s: System, t: nat)
    requires Inv(s) && Enabled(s, ExitTo(t))
    ensures Inv(Step(s, ExitTo(t)))
  {
    DropIdle(s);
    ResumeInv(s.(life := s.life - {s.current}, layout := s.layout - {s.current}), s.cpu, t);
  }

  // ---------- whole runs ----------

  ghost predicate CanRun(s: System, events: seq<Event>)
    decreases |events|
  {
    events != [] ==> Enabled(s, events[0]) && CanRun(Step(s, events[0]), events[1..])
  }

  ghost function After(s: System, events: seq<Event>): System
    requires CanRun(s, events)
    decreases |events|
  {
    if events == [] then s else After(Step(s, events[0]), events[1..])
  }

  /** Thread `t` neither returns to its own code nor ends during `events`. */
  ghost predicate StaysInside(s: System, events: seq<Event>, t: nat)
    requires CanRun(s, events)
    decreases |events|
  {
    events != [] ==>
      && !(s.current == t && (events[0].Return? || events[0].ExitTo?))
      && StaysInside(Step(s, events[0]), events[1..], t)
  }

  /** The result `t` has given itself last, its own handlers' work only. */
  ghost function ResultOf(s: System, events: seq<Event>, t: nat, result: int): int
    requires CanRun(s, events)
    decreases |events|
  {
    if events == [] then result
    else ResultOf(Step(s, events[0]), events[1..], t,
                  if s.current == t && events[0].SetResult? then events[0].v else result)
  }

  /** The mode it is to resume in: user mode once it has asked for that. */
  ghost function ModeOf(s: System, events: seq<Event>, t: nat, mode: Mode): Mode
    requires CanRun(s, events)
    decreases |events|
  {
    if events == [] then mode
    else ModeOf(Step(s, events[0]), events[1..], t, if s.current == t && events[0].DropToUser? then User else mode)
  }

  predicate Trapped(s: System, t: nat, v: View) {
    t in s.life && (s.life[t].Inside? || s.life[t].Parked?) && s.life[t].view == v
  }

  /** One step leaves the view of a trapped thread alone, but for what the thread does itself. */
  lemma StepKeepsView(s: System, e: Event, t: nat, v: View)
    requires Inv(s) && Enabled(s, e) && Trapped(s, t, v)
    requires !(s.current == t && (e.Return? || e.ExitTo?))
    ensures Trapped(Step(s, e), t, v.(result := if s.current == t && e.SetResult? then e.v else v.result,
                                      mode := if s.current == t && e.DropToUser? then User else v.mode))
  {
    if e.SwitchTo? || e.ExitTo? {
      SwitchKeepsView(s, e, t, v);
    }
  }

  lemma SwitchKeepsView(s: System, e: Event, t: nat, v: View)
    requires Inv(s) && Enabled(s, e) && Trapped(s, t, v) && (e.SwitchTo? || (e.ExitTo? && s.current != t))
    ensures Trapped(Step(s, e), t, v)
  {
    var me := s.current;
    if e.SwitchTo? {
      ResumeKeepsView(s.(life := s.life[me := Parked(s.life[me].view, s.cpu)]), Save(s.cpu), e.t, t, v);
    } else {
      ResumeKeepsView(s.(life := s.life - {me}, layout := s.layout - {me}), s.cpu, e.t, t, v);
    }
  }

  lemma ResumeKeepsView(s: System, c: Cpu, u: nat, t: nat, v: View)
    requires Wired(c) && u in s.layout && u in s.life && Trapped(s, t, v)
    ensures Trapped(Resume(s, c, u), t, v)
  {
  }

  lemma {:induction false} RunKeepsView(s: System, events: seq<Event>, t: nat, v: View)
    requires Inv(s) && CanRun(s, events) && StaysInside(s, events, t) && Trapped(s, t, v)
    ensures Inv(After(s, events))
    ensures Trapped(After(s, events), t,
                    v.(result := ResultOf(s, events, t, v.result), mode := ModeOf(s, events, t, v.mode)))
    decreases |events|
  {
    if events != [] {
      var e, s1 := events[0], Step(s, events[0]);
      StepInv(s, e);
      StepKeepsView(s, e, t, v);
      var v1 := v.(result := if s.current == t && e.SetResult? then e.v else v.result,
                   mode := if s.current == t && e.DropToUser? then User else v.mode);
      RunKeepsView(s1, events[1..], t, v1);
    }
  }

  /** A thread traps, any number of things happen, and at last it returns: it finds all its
      registers, its stack pointer and its place as it left them, in its own mode and with its
      own interrupt enable; after a call, its place is behind the `ecall` and a0 holds the
      result given last by its own handler. */
  lemma ResumesAsLeft(s: System, ecall: bool, events: seq<Event>)
    requires Inv(s) && Enabled(s, Trap(ecall))
    requires CanRun(Step(s, Trap(ecall)), events) && StaysInside(Step(s, Trap(ecall)), events, s.current)
    requires var s' := After(Step(s, Trap(ecall)), events); s'.current == s.current && Enabled(s', Return)
    ensures var t, s1 := s.current, Step(s, Trap(ecall));
      var back := Step(After(s1, events), Return).cpu;
      && back.regs == (if ecall then s.cpu.regs[A0 := ResultOf(s1, events, t, FAILED_SYSCALL)] else s.cpu.regs)
      && back.pc == (if ecall then s.cpu.pc + INSTRUCTION_SIZE else s.cpu.pc)
      && back.mode == ModeOf(s1, events, t, s.cpu.mode)
      && Sie(back.sstatus) == Sie(s.cpu.sstatus)
  {
    var t, s1, v := s.current, Step(s, Trap(ecall)), ViewOf(s.cpu, ecall);
    StepInv(s, Trap(ecall));
    RunKeepsView(s1, events, t, v);
    ReturnsView(After(s1, events));
  }

  lemma ReturnsView(s: System)
    requires Inv(s) && Enabled(s, Return)
    ensures var v, back := s.life[s.current].view, Step(s, Return).cpu;
      && back.regs == (if v.ecall then v.regs[A0 := v.result] else v.regs)
      && back.pc == v.pc && back.mode == v.mode && Sie(back.sstatus) == v.enabled
  {
    var l, v := s.layout[s.current], s.life[s.current].view;
    assert LifeOk(s.cpu.mem, l, Inside(v), s.symbols);
    LeaveEffect(s.cpu, l, v);
  }

  /** `k_save_context` itself returns 0, with everything else as it was. */
  lemma FirstReturn(s: System)
    requires Inv(s) && InKernel(s)
    ensures Save(s.cpu).regs == s.cpu.regs[A0 := 0] && Save(s.cpu).pc == s.cpu.regs[RA]
    ensures RESTORED != 0
  {
    SaveEffect(s.cpu, s.layout[s.current]);
  }

  /** The event gives the hart to `t`, from a thread that stays or from one that ends. */
  predicate GivesTo(e: Event, t: nat) {
    e == SwitchTo(t) || e == ExitTo(t)
  }

  /** Where a thread with a saved context called `k_save_context`. */
  function SavedAt(s: System, t: nat): Cpu
    requires t in s.life
  {
    if t == s.current || !s.life[t].Parked? then s.cpu else s.life[t].at
  }

  /** Whoever is restored after `k_save_context` is where it called it: same registers but a0,
      which is not 0 now, same control registers, same stack. */
  lemma SecondReturn(s: System, e: Event, t: nat)
    requires Inv(s) && Enabled(s, e) && GivesTo(e, t) && !s.life[t].Unborn?
    ensures var at, c := SavedAt(s, t), Step(s, e).cpu;
      && c.regs == at.regs[A0 := RESTORED] && c.pc == at.regs[RA] && c.sepc == at.sepc && c.sstatus == at.sstatus
      && StackKept(c.mem, s.layout[t], at)
  {
    if e.SwitchTo? {
      ParkIdle(s);
      RestoredThere(s.(life := s.life[s.current := Parked(s.life[s.current].view, s.cpu)]), Save(s.cpu), t);
    } else {
      DropIdle(s);
      RestoredThere(s.(life := s.life - {s.current}, layout := s.layout - {s.current}), s.cpu, t);
    }
  }

  lemma RestoredThere(s: System, c: Cpu, t: nat)
    requires Idle(s, c) && t in s.life && s.life[t].Parked?
    ensures var at, c' := s.life[t].at, Resume(s, c, t).cpu;
      && c'.regs == at.regs[A0 := RESTORED] && c'.pc == at.regs[RA] && c'.sepc == at.sepc && c'.sstatus == at.sstatus
      && StackKept(c'.mem, s.layout[t], at)
  {
    assert LifeOk(c.mem, s.layout[t], s.life[t], s.symbols);
    RestoreEffect(c, s.layout[t], s.life[t].at);
  }

  /** A thread run for the first time starts at `k_tcb_run_wrapper` on its own user stack, with its
      thread pointer 0, with interrupts enabled and in the mode its creator had. */
  lemma FirstRun(s: System, e: Event, t: nat)
    requires Inv(s) && Enabled(s, e) && GivesTo(e, t) && s.life[t].Unborn?
    ensures var c := Step(s, e).cpu;
      && c.pc == s.symbols.runWrapper && c.regs[SP] == s.life[t].usrSp && c.regs[TP] == 0
      && c.mode == s.life[t].mode && Sie(c.sstatus)
  {
    if e.SwitchTo? {
      ParkIdle(s);
      StartedFresh(s.(life := s.life[s.current := Parked(s.life[s.current].view, s.cpu)]), Save(s.cpu), t);
    } else {
      DropIdle(s);
      StartedFresh(s.(life := s.life - {s.current}, layout := s.layout - {s.current}), s.cpu, t);
    }
  }

  lemma StartedFresh(s: System, c: Cpu, t: nat)
    requires Idle(s, c) && t in s.life && s.life[t].Unborn?
    ensures var c' := Resume(s, c, t).cpu;
      && c'.pc == s.symbols.runWrapper && c'.regs[SP] == s.life[t].usrSp && c'.regs[TP] == 0
      && c'.mode == s.life[t].mode && Sie(c'.sstatus)
  {
    assert LifeOk(c.mem, s.layout[t], s.life[t], s.symbols);
    StartEffect(c, s.layout[t], s.life[t].usrSp, s.life[t].mode, s.symbols);
  }

  /** Nobody runs `t`. */
  ghost predicate NotGivenTo(s: System, events: seq<Event>, t: nat)
    requires CanRun(s, events)
    decreases |events|
  {
    events != [] ==> !GivesTo(events[0], t) && NotGivenTo(Step(s, events[0]), events[1..], t)
  }

  lemma UnbornStays(s: System, e: Event, t: nat)
    requires Inv(s) && Enabled(s, e) && t in s.life && s.life[t].Unborn? && !GivesTo(e, t)
    ensures t in Step(s, e).life && Step(s, e).life[t] == s.life[t]
  {
    assert t != s.current;
    if e.SwitchTo? || e.ExitTo? { NotResumed(s, e, t); }
  }

  lemma NotResumed(s: System, e: Event, t: nat)
    requires Enabled(s, e) && t in s.life && t != s.current && !GivesTo(e, t) && (e.SwitchTo? || e.ExitTo?)
    ensures t in Step(s, e).life && Step(s, e).life[t] == s.life[t]
  {
  }

  lemma {:induction false} UnbornStaysOn(s: System, events: seq<Event>, t: nat)
    requires Inv(s) && CanRun(s, events) && NotGivenTo(s, events, t) && t in s.life && s.life[t].Unborn?
    ensures Inv(After(s, events)) && t in After(s, events).life && After(s, events).life[t] == s.life[t]
    decreases |events|
  {
    if events != [] {
      StepInv(s, events[0]);
      UnbornStays(s, events[0], t);
      UnbornStaysOn(Step(s, events[0]), events[1..], t);
    }
  }

  /** How `c` begins a thread that was created with this user stack and this `sstatus`. */
  predicate Begins(c: Cpu, symbols: Symbols, usrSp: int, sstatus: int)
    requires Wired(c)
  {
    && c.pc == symbols.runWrapper && c.regs[SP] == usrSp && c.regs[TP] == 0 && Sie(c.sstatus)
    && (c.mode == Supervisor <==> Spp(sstatus))
  }

  /** However long after its creation a thread is first run: it starts at `k_tcb_run_wrapper` with the
      user stack it was given and in the mode that its creator had when it created it. */
  lemma StartsAsCreated(s: System, t: nat, l: Layout, usrSp: int, s1: System, events: seq<Event>, e: Event)
    requires Inv(s) && Enabled(s, Create(t, l, usrSp)) && s1 == Step(s, Create(t, l, usrSp))
    requires CanRun(s1, events) && NotGivenTo(s1, events, t)
    requires GivesTo(e, t) && Enabled(After(s1, events), e)
    ensures var s' := Step(After(s1, events), e);
      Wired(s'.cpu) && Begins(s'.cpu, After(s1, events).symbols, usrSp, s.cpu.sstatus)
  {
    StepInv(s, Create(t, l, usrSp));
    BornAs(s, t, l, usrSp);
    UnbornStaysOn(s1, events, t);
    RunsFirst(After(s1, events), e, t, usrSp, s.cpu.sstatus);
  }

  lemma RunsFirst(s: System, e: Event, t: nat, usrSp: int, sstatus: int)
    requires Inv(s) && Enabled(s, e) && GivesTo(e, t) && s.life[t].Unborn?
    requires s.life[t].usrSp == usrSp && (s.life[t].mode == Supervisor <==> Spp(sstatus))
    ensures Wired(Step(s, e).cpu) && Begins(Step(s, e).cpu, s.symbols, usrSp, sstatus)
  {
    StepInv(s, e);
    FirstRun(s, e, t);
  }

  lemma BornAs(s: System, t: nat, l: Layout, usrSp: int)
    requires Inv(s) && Enabled(s, Create(t, l, usrSp))
    ensures var s1 := Step(s, Create(t, l, usrSp));
      && t in s1.life && s1.life[t].Unborn? && s1.life[t].usrSp == usrSp
      && (s1.life[t].mode == Supervisor <==> Spp(s.cpu.sstatus))
  {
  }
}
