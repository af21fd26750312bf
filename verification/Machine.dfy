/** The assembly of the kernel: trap entry and exit, saving and restoring a context, and the first
    entry of a thread, instruction by instruction over registers, control registers and memory.

    Bits of `sstatus` as in section 4.1.1 of the RISC-V Privileged Architecture v1.12. */
module Machine {
  import opened Utils

  datatype Mode = User | Supervisor

  /** Offsets in `Context`. */
  const RA_SLOT := 0x00
  const USR_SP_SLOT := 0x08
  const SYS_SP_SLOT := 0x10
  const TP_SLOT := 0x20
  const A0_SLOT := 0xf8
  const SEPC_SLOT := 0x100
  const SSTATUS_SLOT := 0x108
  const CONTEXT_SIZE := 0x110

  const FRAME_SIZE := 240
  const INSTRUCTION_SIZE := 4
  const RESTORED := 0x1000
  const FAILED_SYSCALL := -1

  const RA := 1
  const SP := 2
  const TP := 4
  const A0 := 10
  const A1 := 11

  /** The registers of a trap frame, in the order of their slots. */
  const FRAME: seq<nat> := [1, 8, 9, 18, 19, 20, 21, 22, 23, 24, 25, 26, 27, 10, 11, 12, 13, 14, 15, 16, 17,
                            5, 6, 7, 28, 29, 30, 31, 3, 4]

  /** The registers of a context from its `sys_sp` slot on, in the order of their slots. */
  const CONTEXT: seq<nat> := [2, 3, 4, 27, 26, 25, 24, 23, 22, 21, 20, 19, 18, 9, 8, 31, 30, 29, 28, 7, 6, 5,
                              17, 16, 15, 14, 13, 12, 11]

  type Memory = map<int, int>

  datatype Cpu = Cpu(regs: seq<int>, pc: int, mode: Mode, sepc: int, sstatus: int, sscratch: int,
                     mem: Memory, kcc: int)

  function At(mem: Memory, a: int): int {
    if a in mem then mem[a] else 0
  }

  // ---------- sstatus ----------

  /** Bit 1: interrupts are enabled. */
  predicate Sie(word: int) {
    word % 4 >= 2
  }

  /** Bit 5: they were before the trap. */
  predicate Spie(word: int) {
    word % 64 >= 32
  }

  /** Bit 8: the trap came from supervisor mode. */
  predicate Spp(word: int) {
    word % 512 >= 256
  }

  function WithSie(word: int, on: bool): (word': int)
    ensures Sie(word') == on
  {
    if Sie(word) == on then word else if on then word + 2 else word - 2
  }

  function WithSpie(word: int, on: bool): (word': int)
    ensures Spie(word') == on
  {
    if Spie(word) == on then word else if on then word + 32 else word - 32
  }

  function WithSpp(word: int, on: bool): (word': int)
    ensures Spp(word') == on
  {
    if Spp(word) == on then word else if on then word + 256 else word - 256
  }

  /** A multiple of the modulus does not change the remainder. */
  lemma Remainder4(word: int, k: int)
    ensures (word + 4 * k) % 4 == word % 4
  {
  }

  lemma Remainder64(word: int, k: int)
    ensures (word + 64 * k) % 64 == word % 64
  {
  }

  /** Changing a bit leaves a lower one alone. */
  lemma SieUnderSpie(word: int, on: bool)
    ensures Sie(WithSpie(word, on)) == Sie(word)
  {
    Remainder4(word, 8);
    Remainder4(word, -8);
  }

  lemma SieUnderSpp(word: int, on: bool)
    ensures Sie(WithSpp(word, on)) == Sie(word)
  {
    Remainder4(word, 64);
    Remainder4(word, -64);
  }

  lemma SpieUnderSpp(word: int, on: bool)
    ensures Spie(WithSpp(word, on)) == Spie(word)
  {
    Remainder64(word, 4);
    Remainder64(word, -4);
  }

  /** And a higher one: there is no carry. */
  lemma SppOverSpie(word: int, on: bool)
    ensures Spp(WithSpie(word, on)) == Spp(word)
  {
    var high, low := word / 64, word % 64;
    Carry(high, low);
    if WithSpie(word, on) != word {
      Carry(high, if on then low + 32 else low - 32);
    }
  }

  lemma Carry(high: int, low: int)
    requires 0 <= low < 64
    ensures Spp(64 * high + low) == (high % 8 >= 4)
  {
    var a, b := high / 8, high % 8;
    Remainder512(a, 64 * b + low);
  }

  lemma Remainder512(a: int, b: int)
    requires 0 <= b < 512
    ensures (512 * a + b) % 512 == b
  {
  }

  // ---------- blocks of registers in memory ----------

  /** Consecutive double words from `base` on. */
  function StoreAll(mem: Memory, base: int, values: seq<int>): Memory {
    if values == [] then mem
    else
      var n := |values| - 1;
      StoreAll(mem, base, values[..n])[base + 8 * n := values[n]]
  }

  predicate Covers(base: int, n: nat, a: int) {
    base <= a < base + 8 * n
  }

  lemma {:induction false} StoredAt(mem: Memory, base: int, values: seq<int>)
    ensures forall i {:trigger values[i]} :: 0 <= i < |values| ==>
      At(StoreAll(mem, base, values), base + 8 * i) == values[i]
    ensures forall a :: !Covers(base, |values|, a) ==> At(StoreAll(mem, base, values), a) == At(mem, a)
  {
    if values != [] {
      var n := |values| - 1;
      StoredAt(mem, base, values[..n]);
      assert forall i :: 0 <= i < n ==> values[..n][i] == values[i];
    }
  }

  /** The values of the registers in `order`. */
  function Pick(regs: seq<int>, order: seq<nat>): seq<int>
    requires |regs| == 32 && forall i :: 0 <= i < |order| ==> order[i] < 32
  {
    seq(|order|, i requires 0 <= i < |order| => regs[order[i]])
  }

  lemma PickKept(regs: seq<int>, order: seq<nat>, r: nat, v: int)
    requires |regs| == 32 && r < 32 && forall i :: 0 <= i < |order| ==> order[i] < 32 && order[i] != r
    ensures Pick(regs[r := v], order) == Pick(regs, order)
  {
  }

  /** The registers with those in `order` loaded from `base` on. */
  function LoadAll(regs: seq<int>, order: seq<nat>, mem: Memory, base: int): (regs': seq<int>)
    requires |regs| == 32 && forall i :: 0 <= i < |order| ==> order[i] < 32
    ensures |regs'| == 32
  {
    if order == [] then regs
    else
      var n := |order| - 1;
      LoadAll(regs, order[..n], mem, base)[order[n] := At(mem, base + 8 * n)]
  }

  lemma LoadOneMore(regs: seq<int>, order: seq<nat>, i: nat, mem: Memory, base: int)
    requires |regs| == 32 && i < |order| && forall i :: 0 <= i < |order| ==> order[i] < 32
    ensures LoadAll(regs, order[..i + 1], mem, base)
         == LoadAll(regs, order[..i], mem, base)[order[i] := At(mem, base + 8 * i)]
  {
    assert order[..i + 1][..i] == order[..i];
  }

  lemma {:induction false} LoadedAt(regs: seq<int>, order: seq<nat>, mem: Memory, base: int)
    requires |regs| == 32 && Distinct(order) && forall i :: 0 <= i < |order| ==> order[i] < 32
    ensures forall i :: 0 <= i < |order| ==> LoadAll(regs, order, mem, base)[order[i]] == At(mem, base + 8 * i)
    ensures forall r :: 0 <= r < 32 && r !in order ==> LoadAll(regs, order, mem, base)[r] == regs[r]
  {
    if order != [] {
      var n := |order| - 1;
      LoadedAt(regs, order[..n], mem, base);
      assert forall i :: 0 <= i < n ==> order[..n][i] == order[i];
      assert order == order[..n] + [order[n]];
    }
  }

  lemma TablesFit()
    ensures |FRAME| == 30 && |CONTEXT| == 29
    ensures forall i :: 0 <= i < |FRAME| ==> FRAME[i] < 32
    ensures forall i :: 0 <= i < |CONTEXT| ==> CONTEXT[i] < 32
  {
  }

  lemma FrameDistinct()
    ensures Distinct(FRAME)
  {
    assert forall i :: 0 <= i < 30 ==> FRAME[i] >= 1 && FrameSlot(FRAME[i]) == i;
  }

  lemma ContextDistinct()
    ensures Distinct(CONTEXT)
  {
    assert forall i :: 0 <= i < 29 ==> CONTEXT[i] >= 2 && ContextSlot(CONTEXT[i]) == i;
  }

  function FrameSlot(r: nat): nat
    requires 1 <= r < 32
  {
    if r == 1 then 0
    else if r == 8 || r == 9 then r - 7
    else if 18 <= r <= 27 then r - 15
    else if 10 <= r <= 17 then r + 3
    else if 5 <= r <= 7 then r + 16
    else if 28 <= r then r - 4
    else r + 25
  }

  function ContextSlot(r: nat): nat
    requires 2 <= r < 32
  {
    if r <= 4 then r - 2
    else if 18 <= r <= 27 then 30 - r
    else if r == 8 || r == 9 then 22 - r
    else if 28 <= r then 46 - r
    else if r <= 7 then 26 - r
    else 39 - r
  }

  lemma NoStackPointerIn()
    ensures forall i :: 0 <= i < |FRAME| ==> FRAME[i] != SP
  {
  }

  /** Every register but x0 and the stack pointer has a slot in the frame. */
  lemma FrameComplete(r: nat)
    requires 1 <= r < 32 && r != SP
    ensures FrameSlot(r) < |FRAME| && FRAME[FrameSlot(r)] == r
  {
  }

  /** Every register but x0, ra and a0 has one in the block of a context. */
  lemma ContextComplete(r: nat)
    requires 2 <= r < 32 && r != A0
    ensures ContextSlot(r) < |CONTEXT| && CONTEXT[ContextSlot(r)] == r
  {
  }

  // ---------- what the pieces of assembly do ----------

  predicate Wired(c: Cpu) {
    |c.regs| == 32
  }

  /** The hardware takes a trap: the previous mode and interrupt enable go to SPP and SPIE. */
  function TakeTrap(c: Cpu, vector: int): Cpu {
    var masked := WithSpie(WithSie(c.sstatus, false), Sie(c.sstatus));
    c.(sepc := c.pc, pc := vector, mode := Supervisor, sstatus := WithSpp(masked, c.mode == Supervisor))
  }

  function Sret(c: Cpu): Cpu {
    var enabled := WithSpie(WithSie(c.sstatus, Spie(c.sstatus)), true);
    c.(pc := c.sepc, mode := if Spp(c.sstatus) then Supervisor else User, sstatus := WithSpp(enabled, false))
  }

  function ToKernelStack(c: Cpu): Cpu
    requires Wired(c)
  {
    c.(mem := c.mem[c.kcc + USR_SP_SLOT := c.regs[SP]],
       regs := c.regs[SP := At(c.mem, c.kcc + SYS_SP_SLOT)], sscratch := c.regs[RA])
  }

  function ToUserStack(c: Cpu): Cpu
    requires Wired(c)
  {
    c.(mem := c.mem[c.kcc + SYS_SP_SLOT := c.regs[SP]],
       regs := c.regs[SP := At(c.mem, c.kcc + USR_SP_SLOT)], sscratch := c.regs[RA])
  }

  /** The same, and a0 gets the result of the call. */
  function ToUserStackEcall(c: Cpu): Cpu
    requires Wired(c)
  {
    var c' := ToUserStack(c);
    c'.(regs := c'.regs[A0 := At(c.mem, c.kcc + A0_SLOT)])
  }

  function PushRegisters(c: Cpu): Cpu
    requires Wired(c)
  {
    TablesFit();
    var sp := c.regs[SP] - FRAME_SIZE;
    c.(mem := StoreAll(c.mem, sp, Pick(c.regs, FRAME)), regs := c.regs[SP := sp])
  }

  function PopRegisters(c: Cpu): Cpu
    requires Wired(c)
  {
    TablesFit();
    var regs := LoadAll(c.regs, FRAME, c.mem, c.regs[SP]);
    c.(regs := regs[SP := regs[SP] + FRAME_SIZE])
  }

  /** `k_save_context` of the context at `ctx`, up to its return. */
  function SaveContext(c: Cpu, ctx: int): Cpu
    requires Wired(c)
  {
    TablesFit();
    var saved := StoreAll(c.mem[ctx + RA_SLOT := c.regs[RA]], ctx + SYS_SP_SLOT, Pick(c.regs, CONTEXT));
    c.(mem := saved[ctx + SEPC_SLOT := c.sepc][ctx + SSTATUS_SLOT := c.sstatus], regs := c.regs[A0 := 0],
       pc := c.regs[RA])
  }

  /** `k_restore_context` of the context at `ctx`, up to its return. */
  function RestoreContext(c: Cpu, ctx: int): Cpu
    requires Wired(c)
  {
    TablesFit();
    var loaded := LoadAll(c.regs[RA := At(c.mem, ctx + RA_SLOT)], CONTEXT, c.mem, ctx + SYS_SP_SLOT);
    c.(regs := loaded[A0 := RESTORED], pc := loaded[RA],
       sepc := At(c.mem, ctx + SEPC_SLOT), sstatus := At(c.mem, ctx + SSTATUS_SLOT))
  }

  /** `k_tcb_start`. */
  function StartThread(c: Cpu, wrapper: int): Cpu
    requires Wired(c)
  {
    var c' := ToUserStack(c);
    Sret(c'.(regs := c'.regs[RA := wrapper], sepc := wrapper))
  }

  function Enter(c: Cpu, vector: int): Cpu
    requires Wired(c)
  {
    PushRegisters(ToKernelStack(TakeTrap(c, vector)))
  }

  function Leave(c: Cpu, ecall: bool): Cpu
    requires Wired(c)
  {
    Sret(if ecall then ToUserStackEcall(PopRegisters(c)) else ToUserStack(PopRegisters(c)))
  }

  lemma LastRegister(first: seq<int>, loaded: seq<int>, mem: Memory, base: int)
    requires |first| == 32 && |CONTEXT| == 29 && forall i :: 0 <= i < |CONTEXT| ==> CONTEXT[i] < 32
    requires loaded == LoadAll(first, CONTEXT[..28], mem, base)
    ensures LoadAll(first, CONTEXT, mem, base) == loaded[A1 := At(mem, base + 8 * 28)]
  {
    assert CONTEXT[28] == A1;
  }

  lemma NoA0In()
    ensures forall i :: 0 <= i < |CONTEXT| ==> CONTEXT[i] != A0
  {
  }

  // ---------- the instructions ----------

  class Hart {
    const regs: array<int>
    var pc: int
    var mode: Mode
    var sepc: int
    var sstatus: int
    var sscratch: int
    var mem: Memory
    /** The variable `k_current_context`. */
    var currentContext: int

    constructor (pc: int)
      ensures Valid() && fresh(regs) && this.pc == pc && mode == Supervisor
    {
      regs := new int[32](i => 0);
      this.pc := pc;
      mode := Supervisor;
      sepc, sstatus, sscratch := 0, 0, 0;
      mem := map[];
      currentContext := 0;
    }

    predicate Valid() {
      regs.Length == 32
    }

    function State(): (c: Cpu)
      requires Valid()
      reads this, regs
      ensures Wired(c)
    {
      Cpu(regs[..], pc, mode, sepc, sstatus, sscratch, mem, currentContext)
    }

    method Load(rd: nat, offset: int, rs: nat)
      requires Valid() && rd < 32 && rs < 32
      modifies regs
      ensures regs[..] == old(regs[..])[rd := At(mem, old(regs[rs]) + offset)]
    {
      regs[rd] := At(mem, regs[rs] + offset);
    }

    method Store(rs2: nat, offset: int, rs1: nat)
      requires Valid() && rs2 < 32 && rs1 < 32
      modifies this`mem
      ensures mem == old(mem)[regs[rs1] + offset := regs[rs2]]
    {
      mem := mem[regs[rs1] + offset := regs[rs2]];
    }

    method SwitchToKernelStack()
      requires Valid()
      modifies this`mem, this`sscratch, regs
      ensures State() == ToKernelStack(old(State()))
    {
      sscratch := regs[RA];
      regs[RA] := currentContext;
      Store(SP, USR_SP_SLOT, RA);
      Load(SP, SYS_SP_SLOT, RA);
      regs[RA] := sscratch;
    }

    method SwitchToUserStack()
      requires Valid()
      modifies this`mem, this`sscratch, regs
      ensures State() == ToUserStack(old(State()))
    {
      sscratch := regs[RA];
      regs[RA] := currentContext;
      Store(SP, SYS_SP_SLOT, RA);
      Load(SP, USR_SP_SLOT, RA);
      regs[RA] := sscratch;
    }

    method SwitchToUserStackEcall()
      requires Valid()
      modifies this`mem, this`sscratch, regs
      ensures State() == ToUserStackEcall(old(State()))
    {
      sscratch := regs[RA];
      regs[RA] := currentContext;
      Store(SP, SYS_SP_SLOT, RA);
      Load(SP, USR_SP_SLOT, RA);
      Load(A0, A0_SLOT, RA);
      regs[RA] := sscratch;
    }

    method SaveCpuRegistriesOnStack()
      requires Valid()
      modifies this`mem, regs
      ensures State() == PushRegisters(old(State()))
    {
      TablesFit();
      regs[SP] := regs[SP] - FRAME_SIZE;
      ghost var values := Pick(regs[..], FRAME);
      var i := 0;
      while i < |FRAME|
        invariant 0 <= i <= |FRAME| && regs[..] == old(regs[..])[SP := old(regs[SP]) - FRAME_SIZE]
        invariant mem == StoreAll(old(mem), regs[SP], values[..i])
      {
        Store(FRAME[i], 8 * i, SP);
        assert values[..i + 1][..i] == values[..i];
        i := i + 1;
      }
      assert values[..|FRAME|] == values;
      NoStackPointerIn();
      PickKept(old(regs[..]), FRAME, SP, regs[SP]);
    }

    method RestoreCpuRegistriesFromStack()
      requires Valid()
      modifies regs
      ensures State() == PopRegisters(old(State()))
    {
      TablesFit();
      NoStackPointerIn();
      LoadMany(FRAME, |FRAME|, SP, 0);
      assert FRAME[..|FRAME|] == FRAME;
      regs[SP] := regs[SP] + FRAME_SIZE;
    }

    /** The first `n` registers of `order`, loaded from consecutive words at `offset(rs)`. */
    method LoadMany(order: seq<nat>, n: nat, rs: nat, offset: int)
      requires Valid() && n <= |order| && rs < 32
      requires forall j :: 0 <= j < |order| ==> order[j] < 32
      requires forall j :: 0 <= j < n ==> order[j] != rs
      modifies regs
      ensures regs[rs] == old(regs[rs])
      ensures regs[..] == LoadAll(old(regs[..]), order[..n], mem, old(regs[rs]) + offset)
    {
      var i := 0;
      while i < n
        invariant 0 <= i <= n && regs[rs] == old(regs[rs])
        invariant regs[..] == LoadAll(old(regs[..]), order[..i], mem, old(regs[rs]) + offset)
      {
        LoadNext(order, i, rs, offset, old(regs[..]));
        i := i + 1;
      }
    }

    /** One load of the sequence that restores the registers in `order`. */
    method LoadNext(order: seq<nat>, i: nat, rs: nat, offset: int, ghost was: seq<int>)
      requires Valid() && |was| == 32 && i < |order| && rs < 32 && order[i] != rs
      requires forall j :: 0 <= j < |order| ==> order[j] < 32
      requires regs[rs] == was[rs] && regs[..] == LoadAll(was, order[..i], mem, was[rs] + offset)
      modifies regs
      ensures regs[rs] == was[rs] && regs[..] == LoadAll(was, order[..i + 1], mem, was[rs] + offset)
    {
      LoadOneMore(was, order, i, mem, was[rs] + offset);
      Load(order[i], offset + 8 * i, rs);
    }

    method SaveInContext()
      requires Valid()
      modifies this`mem, this`pc, regs
      ensures State() == SaveContext(old(State()), old(regs[A0]))
    {
      TablesFit();
      ghost var values := Pick(regs[..], CONTEXT);
      Store(RA, RA_SLOT, A0);
      StoreContext(values);
      ghost var a1 := regs[A1];
      StoredAt(old(mem)[regs[A0] + RA_SLOT := regs[RA]], regs[A0] + SYS_SP_SLOT, values);
      assert values[28] == a1;
      regs[A1] := sepc;
      Store(A1, SEPC_SLOT, A0);
      regs[A1] := sstatus;
      Store(A1, SSTATUS_SLOT, A0);
      Load(A1, SYS_SP_SLOT + 8 * 28, A0);
      assert regs[A1] == a1;
      assert regs[..] == old(regs[..]);
      regs[A0] := 0;
      pc := regs[RA];
    }

    method StoreContext(ghost values: seq<int>)
      requires Valid()
      requires |CONTEXT| == 29 && forall i :: 0 <= i < |CONTEXT| ==> CONTEXT[i] < 32
      requires values == Pick(regs[..], CONTEXT)
      modifies this`mem
      ensures mem == StoreAll(old(mem), regs[A0] + SYS_SP_SLOT, values)
    {
      var i := 0;
      while i < |CONTEXT|
        invariant 0 <= i <= |CONTEXT|
        invariant mem == StoreAll(old(mem), regs[A0] + SYS_SP_SLOT, values[..i])
      {
        Store(CONTEXT[i], SYS_SP_SLOT + 8 * i, A0);
        assert values[..i + 1][..i] == values[..i];
        i := i + 1;
      }
      assert values[..|CONTEXT|] == values;
    }

    method RestoreFromContext()
      requires Valid()
      modifies this`pc, this`sepc, this`sstatus, regs
      ensures State() == RestoreContext(old(State()), old(regs[A0]))
    {
      TablesFit();
      Load(RA, RA_SLOT, A0);
      ghost var first := regs[..];
      NoA0In();
      LoadMany(CONTEXT, 28, A0, SYS_SP_SLOT);  // all but a1, which is still needed
      ghost var loaded := regs[..];
      Load(A1, SEPC_SLOT, A0);
      sepc := regs[A1];
      Load(A1, SSTATUS_SLOT, A0);
      sstatus := regs[A1];
      Load(A1, SYS_SP_SLOT + 8 * 28, A0);
      LastRegister(first, loaded, mem, regs[A0] + SYS_SP_SLOT);
      assert regs[..] == LoadAll(first, CONTEXT, mem, regs[A0] + SYS_SP_SLOT);
      regs[A0] := RESTORED;
      pc := regs[RA];
    }

    method KTcbStart(wrapper: int)
      requires Valid()
      modifies this, regs
      ensures State() == StartThread(old(State()), wrapper)
    {
      SwitchToUserStack();
      regs[RA] := wrapper;
      sepc := regs[RA];
      DoSret();
    }

    method DoSret()
      requires Valid()
      modifies this`pc, this`mode, this`sstatus
      ensures State() == Sret(old(State()))
    {
      pc := sepc;
      mode := if Spp(sstatus) then Supervisor else User;
      sstatus := WithSpp(WithSpie(WithSie(sstatus, Spie(sstatus)), true), false);
    }

    /** A trap routine up to its `call`. */
    method TrapEntry(vector: int)
      requires Valid()
      modifies this, regs
      ensures State() == Enter(old(State()), vector)
    {
      sepc := pc;
      sstatus := WithSpp(WithSpie(WithSie(sstatus, false), Sie(sstatus)), mode == Supervisor);
      pc := vector;
      mode := Supervisor;
      SwitchToKernelStack();
      SaveCpuRegistriesOnStack();
    }

    /** And from there on. */
    method TrapExit(ecall: bool)
      requires Valid()
      modifies this, regs
      ensures State() == Leave(old(State()), ecall)
    {
      RestoreCpuRegistriesFromStack();
      if ecall {
        SwitchToUserStackEcall();
      } else {
        SwitchToUserStack();
      }
      DoSret();
    }
  }
}
