/**
 The generated table implements the instruction set: instruction by instruction, and over whole runs
 with interrupts, it does what HucIsa says.
 */
module HucRefine {
  import opened Common
  import opened HucMachine
  import opened HucMicrocode
  import opened HucCertify
  import opened HucText
  import opened HucTable
  import opened HucExec
  import opened HucOperands
  import opened HucTMode
  import opened HucBlockMove
  import opened HucCalls
  import opened HucInterrupts
  import opened HucRun
  import opened HucIsa
  import opened HucRefineBasics
  import opened HucRefineOperands
  import opened HucRefineFlow
  import opened HucReset

  // ----- Every instruction -----

  lemma KeptRefines(i: Instr, s: Cpu, t: Cpu, n: nat)
    requires Ready(s) && Proper(i) && Completes(Compile(Text(i)), s, n, t) && n == Result(i, s).cycles
    requires t.tcu == 0 && t.rd && !t.wr && t.mem == Result(i, s).mem
    requires Kept(t.core, Closing(i, Result(i, s).c)) && t.core.addr == Closing(i, Result(i, s).c).addr
    ensures Refines(i, s, t)
  {
    hide Completes, Compile, Text, Result, Closing, Proper;
  }

  lemma CallRefines(s: Cpu) returns (t: Cpu)
    requires Ready(s)
    ensures Refines(ICall, s, t)
  {
    hide Completes, Compile, CallCode, CallCore, CallMem, Fetch, EndCore, Refines, Kept;
    t := HucCalls.CallExec(s);
    EndedIs(CallCore(s));
    KeptRefines(ICall, s, t, 7);
  }

  lemma ReturnRefines(s: Cpu) returns (t: Cpu)
    requires Ready(s)
    ensures Refines(IReturn, s, t)
  {
    hide Completes, Compile, ReturnCode, Pulled, Fetch, EndCore, Refines, Kept;
    t := HucCalls.ReturnExec(s);
    EndedIs(Pulled(s));
    KeptRefines(IReturn, s, t, 7);
  }

  lemma BranchSubRefines(s: Cpu) returns (t: Cpu)
    requires Ready(s)
    ensures Refines(IBranchSub, s, t)
  {
    hide Completes, Compile, BranchSubroutineCode, BranchCore, BranchMem, Fetch, EndCore, Refines, Kept;
    t := HucCalls.BranchExec(s);
    EndedIs(BranchCore(s));
    KeptRefines(IBranchSub, s, t, 8);
  }

  lemma InterruptRefines(vector: int, s: Cpu) returns (t: Cpu)
    requires Ready(s) && 256 <= vector < 65535
    ensures Refines(IInterrupt(vector), s, t)
  {
    hide Completes, Compile, InterruptCode, EntryCore, EntryMem, Fetch, EndCore, Refines, Kept;
    t := EntryExec(vector, s);
    EndedIs(EntryCore(vector, s));
    KeptRefines(IInterrupt(vector), s, t, 8);
  }

  lemma ReturnIntRefines(s: Cpu) returns (t: Cpu)
    requires Ready(s)
    ensures Refines(IReturnInt, s, t)
  {
    hide Completes, Compile, ReturnFromInterruptCode, Restored, Fetch, EndCore, Refines, Kept;
    t := RestoreExec(s);
    KeptRefines(IReturnInt, s, t, 7);
  }

  lemma MoveRefines(k: MoveKind, s: Cpu) returns (t: Cpu)
    requires Ready(s)
    ensures Refines(IMove(k), s, t)
  {
    hide Completes, Compile, BlockCode, Copy, FirstByte, Length, Finished, Fetch, EndCore, Refines;
    t := BlockExec(k, s);
    EndedIs(Finished(s, t.mem));
    KeptRefines(IMove(k), s, t, 17 + 6 * Length(s));
  }

  lemma MemRefines(m: Mode, f: AluOp, s: Cpu) returns (t: Cpu)
    requires Ready(s) && Proper(IMem(m, f))
    ensures Refines(IMem(m, f), s, t)
  {
    hide Completes, Compile, MemCode, Address, AluEval, EndCore, Fetch, ZeroPage, AddrCases;
    t := MemExec(m, f, s);
    FormLength(m);
    AddressOf(m, s.core, Latched(s), s.mem);
    var b := Read(s.mem, ZeroPage(s.core.r.mpr, s.core.r.x));
    var e := s.core.(r := s.core.r.(pc := Behind(m, s), p := AluEval(f, s.core.r.(a := b), HucTMode.Operand(m, s)).p));
    EndedKeepsA(e);
    EndedIs(e);
  }

  lemma ReadRefines(m: Mode, f: AluOp, dt: Reg, quiet: bool, s: Cpu) returns (t: Cpu)
    requires Ready(s) && Proper(IRead(m, f, dt, quiet))
    ensures Refines(IRead(m, f, dt, quiet), s, t)
  {
    hide Refines, Proper;
    if Splits(f) {
      t := ReadSplit(m, f, dt, quiet, s);
    } else {
      t := ReadWhole(m, f, dt, quiet, s);
    }
  }

  lemma WriteRefines(m: Mode, v: Src, s: Cpu) returns (t: Cpu)
    requires Ready(s) && Proper(IWrite(m, v))
    ensures Refines(IWrite(m, v), s, t)
  {
    hide Refines;
    match m {
      case Zp(inx) => t := WriteZeroExec(v, inx, s);
      case Abso(inx) => t := WriteAbsoluteExec(v, inx, s);
      case Ind(inx) => t := WriteIndirectExec(v, inx, s);
      case IndY => t := WriteIndirectYExec(v, s);
    }
  }

  lemma TestRefines(m: Mode, s: Cpu) returns (t: Cpu)
    requires Ready(s) && Proper(ITest(m))
    ensures Refines(ITest(m), s, t)
  {
    hide Refines;
    match m {
      case Zp(inx) => t := TestZeroExec(inx, s);
      case Abso(inx) => t := TestAbsoluteExec(inx, s);
    }
  }

  lemma BranchRefines(taken: Option<(FlagName, bool)>, s: Cpu) returns (t: Cpu)
    requires Ready(s)
    ensures Refines(IBranch(taken), s, t)
  {
    hide Refines;
    match taken {
      case None => t := BranchAlwaysExec(s);
      case Some((f, on)) => t := HucRefineFlow.BranchExec(f, on, s);
    }
  }

  /**
   Compiler correctness: the microcode of every instruction, as emitted with its pin writes left out
   where unchanged, run by the driver from any state an instruction may start in, ends after exactly
   the cycles of the instruction, with its registers, flags and memory and the next opcode on order.
   */
  lemma InstrRefines(i: Instr, s: Cpu) returns (t: Cpu)
    requires Ready(s) && Proper(i)
    ensures Refines(i, s, t)
  {
    hide Refines, Ready;
    match i {
      case IRead(m, f, dt, quiet) => t := ReadRefines(m, f, dt, quiet, s);
      case IMem(m, f) => t := MemRefines(m, f, s);
      case IWrite(m, v) => t := WriteRefines(m, v, s);
      case IModify(m, f) => t := ModifyExec(m, f, s);
      case IBit(k, on) => t := BitExec(k, on, s);
      case ITest(m) => t := TestRefines(m, s);
      case IAlu(f, dt) => t := AluExec(f, dt, s);
      case IClear(x) => t := ClearExec(x, s);
      case ISet(f) => t := SetExec(f, s);
      case ITransfer(src, dst) => t := TransferExec(src, dst, s);
      case IStackPointer => t := StackPointerExec(s);
      case ISwap(d1, d2) => t := SwapExec(d1, d2, s);
      case INop => t := NopExec(s);
      case ISpeed(div) => t := SpeedExec(div, s);
      case IStore(addr) => t := StoreExec(addr, s);
      case IPush(v) => t := PushExec(v, s);
      case IPull(dt) => t := PullExec(dt, s);
      case IPullP => t := PullPExec(s);
      case IBranch(taken) => t := BranchRefines(taken, s);
      case IBranchBit(k, on) => t := BitBranchExec(k, on, s);
      case IJump => t := JumpExec(s);
      case IJumpIndirect(inx) => t := JumpIndirectExec(inx, s);
      case ICall => t := CallRefines(s);
      case IReturn => t := ReturnRefines(s);
      case IBranchSub => t := BranchSubRefines(s);
      case IBreak => t := BreakExec(s);
      case IInterrupt(vector) => t := InterruptRefines(vector, s);
      case IReturnInt => t := ReturnIntRefines(s);
      case IReset => t := ResetExec(s);
      case IToBanks => t := ToBanksExec(s);
      case IFromBanks => t := FromBanksExec(s);
      case IMove(k) => t := MoveRefines(k, s);
    }
  }

  // ----- Every table entry -----

  lemma ControlProper(high: int, column: int, quiet: bool)
    requires 0 <= high < 8 && 0 <= column < 8
    ensures Proper(Control(high, column, quiet))
  {
  }

  lemma RegistersProper(high: int, column: int, quiet: bool)
    requires 0 <= high < 8 && 0 <= column < 8 && column != 4
    ensures Proper(Registers(high, column, quiet))
  {
  }

  lemma SpecialProper(row: int)
    ensures Proper(Special(row))
  {
  }

  lemma ModeProper(low: int)
    requires ModeOf(low).Some?
    ensures IsMode(ModeOf(low).value)
  {
  }

  lemma OperationProper(high: int, m: Mode, quiet: bool)
    requires 0 <= high < 8 && IsMode(m)
    ensures high != 4 ==> Proper(IRead(m, Operation(high), RA, quiet))
    ensures high < 4 ==> Proper(IMem(m, Operation(high)))
  {
  }

  lemma InstrProper(opcode: int, tbit: bool)
    requires 0 <= opcode < ENTRIES
    ensures Proper(InstrOf(opcode, tbit))
  {
    hide Control, Registers, Special, ModeOf, Operation;
    var high, low, row := opcode / 0x20, opcode % 0x20, opcode / 0x10;
    var quiet := tbit && opcode > 0xE0;
    if opcode < 0x100 {
      if ModeOf(low).Some? {
        ModeProper(low);
        OperationProper(high, ModeOf(low).value, quiet);
        ModeOfStore(low);
      }
      SpecialProper(row);
      ControlProper(high, low / 4, quiet);
      Arithmetic(low);
      if low / 4 != 4 {
        RegistersProper(high, low / 4, quiet);
      }
    }
  }

  /** 0x89, which would store an immediate, is BIT instead. */
  lemma ModeOfStore(low: int)
    ensures ModeOf(low).Some? && low != 0x09 ==> !ModeOf(low).value.Imm?
  {
  }

  /** Group 1, and (zp) in group 2, are arithmetic. */
  lemma Arithmetic(low: int)
    requires 0 <= low < 0x20
    ensures low % 4 == 1 || low == 0x12 ==> ModeOf(low).Some?
  {
  }

  /** An entry of the generated table does what the opcode matrix and HucIsa say of its opcode. */
  lemma EntryRefines(opcode: int, tbit: bool, r: seq<seq<Op>>, s: Cpu) returns (t: Cpu)
    requires Entry(opcode, tbit, r) && 0 <= opcode < ENTRIES && Ready(s)
    ensures var i := InstrOf(opcode, tbit);
      Proper(i) && Completes(r, s, Result(i, s).cycles, t) && Ends(i, s, t)
  {
    hide InstrOf, Ready, Result, Ends, Completes, Compile, Text, Proper;
    InstrProper(opcode, tbit);
    t := InstrRefines(InstrOf(opcode, tbit), s);
  }

  // ----- Whole runs -----

  /** The machine at a boundary, scratch registers and D aside. */
  datatype Machine = Machine(v: Arch, mem: map<int, byte>)

  function Visible(s: Cpu): Machine {
    Machine(View(s.core), s.mem)
  }

  const ZEROS: File8 := [0, 0, 0, 0, 0, 0, 0, 0]

  /** A state that looks like `m`. */
  function Bare(m: Machine): Cpu {
    var v := m.v;
    Cpu(Core(Regs(v.a, v.x, v.y, v.sp, v.pc, 0, ZEROS, v.mpr, v.mpl, v.p), 0, v.addr, v.bm, v.irq, v.clockDiv,
      v.timerOn, v.fault),
        0, true, false, m.mem)
  }

  /** One instruction or interrupt entry of the instruction set, with the request lines given. */
  function Chosen(m: Machine, lines: Lines): (Instr, Cpu) {
    var d := Begin(Bare(m), lines);
    if d.Run? then (InstrOf(d.opcode, d.s.core.r.p.t), d.s) else (INop, Bare(m))
  }

  function Next(m: Machine, lines: Lines): (n: (Machine, nat)) {
    var (i, s) := Chosen(m, lines);
    if Ready(s) && Proper(i) then
      var o := Result(i, s);
      (Machine(View(Closing(i, o.c)), o.mem), o.cycles)
    else (m, 0)
  }

  function IsaRun(m: Machine, requests: seq<Lines>): Machine
    decreases |requests|
  {
    if |requests| == 0 then m else IsaRun(Next(m, requests[0]).0, requests[1..])
  }

  function IsaCycles(m: Machine, requests: seq<Lines>): nat
    decreases |requests|
  {
    if |requests| == 0 then 0 else Next(m, requests[0]).1 + IsaCycles(Next(m, requests[0]).0, requests[1..])
  }

  function Requests(es: seq<Event>): seq<Lines> {
    seq(|es|, k requires 0 <= k < |es| => es[k].lines)
  }

  function Cycles(es: seq<Event>): nat {
    if |es| == 0 then 0 else es[0].cycles + Cycles(es[1..])
  }

  /** Equal but for scratch. */
  predicate SameMachine(s: Cpu, u: Cpu) {
    Ready(s) && Ready(u) && s.mem == u.mem && View(s.core) == View(u.core)
  }

  lemma SameCore(s: Cpu, u: Cpu)
    requires SameMachine(s, u)
    ensures Kept(s.core, u.core) && s.core.addr == u.core.addr
    ensures s.core.r == u.core.r.(ta := s.core.r.ta, tr := s.core.r.tr) && s.core.irq == u.core.irq
  {
  }

  lemma SpeedKept(c: Core, e: Core, div: nat)
    requires Kept(c, e)
    ensures Kept(c.(clockDiv := div), e.(clockDiv := div))
  {
  }

  /** Changes that keep two cores equal but for scratch. */
  lemma KeptChanges(c: Core, e: Core)
    requires Kept(c, e)
    ensures forall pc {:trigger AtPC(c, pc)} :: Kept(AtPC(c, pc), AtPC(e, pc))
    ensures forall p {:trigger WithFlags(c, p)} :: Kept(WithFlags(c, p), WithFlags(e, p))
    ensures forall g, v {:trigger WithReg(c, g, v)} :: Kept(WithReg(c, g, v), WithReg(e, g, v))
    ensures Kept(Poll(c), Poll(e))
  {
    hide Poll;
    SamePoll(c, e);
  }

  predicate SameOutcome(i: Instr, s: Cpu, u: Cpu)
    requires Ready(s) && Ready(u) && Proper(i)
  {
    var o, q := Result(i, s), Result(i, u);
    o.mem == q.mem && o.cycles == q.cycles && Kept(o.c, q.c)
  }

  lemma SameBytes(s: Cpu, u: Cpu)
    requires SameMachine(s, u)
    ensures First(s) == First(u) && Second(s) == Second(u) && Kept(Past1(s), Past1(u)) && Kept(Past2(s), Past2(u))
  {
    hide Phys;
    SameCore(s, u);
  }

  /** The bytes pushed are the same. */
  lemma SamePushes(s: Cpu, u: Cpu)
    requires SameMachine(s, u)
    ensures CallMem(s) == CallMem(u) && BranchMem(s) == BranchMem(u) && BreakMem(s) == BreakMem(u) &&
      EntryMem(s) == EntryMem(u)
    ensures Pushed(s) == Pushed(u)
  {
    hide StackAddr, Pack;
    SameCore(s, u);
  }

  predicate Operates(i: Instr) {
    i.IRead? || i.IMem? || i.IWrite? || i.IModify? || i.ITest?
  }

  /** The operand and the zero-page byte T mode uses are the same. */
  lemma SameOperand(m: Mode, f: AluOp, s: Cpu, u: Cpu)
    requires SameMachine(s, u) && IsMode(m)
    ensures var a, b := Address(m, s.core, s.mem), Address(m, u.core, u.mem); var v := Read(s.mem, a.addr);
      a.addr == b.addr && a.r.pc == b.r.pc && AluEval(f, s.core.r, v) == AluEval(f, u.core.r, v)
    ensures var a, b := Address(m, Past1(s), s.mem), Address(m, Past1(u), u.mem); a.addr == b.addr && a.r.pc == b.r.pc
    ensures var z := ZeroPage(s.core.r.mpr, s.core.r.x); var v := Read(s.mem, Address(m, s.core, s.mem).addr);
      AluEval(f, s.core.r.(a := Read(s.mem, z)), v) == AluEval(f, u.core.r.(a := Read(s.mem, z)), v)
  {
    hide Address, AluEval, ZeroPage, Phys;
    SameCore(s, u);
    AddressOf(m, s.core, u.core, s.mem);
    AddressOf(m, Past1(s), Past1(u), s.mem);
    var v, b := Read(s.mem, Address(m, s.core, s.mem).addr), Read(s.mem, ZeroPage(s.core.r.mpr, s.core.r.x));
    AluSees(f, s.core.r, u.core.r, v);
    AluSees(f, s.core.r.(a := b), u.core.r.(a := b), v);
  }

  lemma ReadBlind(m: Mode, f: AluOp, dt: Reg, quiet: bool, s: Cpu, u: Cpu)
    requires SameMachine(s, u) && Proper(IRead(m, f, dt, quiet))
    ensures SameOutcome(IRead(m, f, dt, quiet), s, u)
  {
    hide Address, AluEval;
    SameCore(s, u);
    SameOperand(m, f, s, u);
  }

  lemma MemBlind(m: Mode, f: AluOp, s: Cpu, u: Cpu)
    requires SameMachine(s, u) && Proper(IMem(m, f))
    ensures SameOutcome(IMem(m, f), s, u)
  {
    hide Address, AluEval, ZeroPage;
    SameCore(s, u);
    SameOperand(m, f, s, u);
  }

  lemma PlaceBlind(i: Instr, s: Cpu, u: Cpu)
    requires SameMachine(s, u) && Proper(i) && (i.IWrite? || i.IModify? || i.ITest?)
    ensures SameOutcome(i, s, u)
  {
    hide Address, AluEval, Tested, First, Kept, Eval;
    SameCore(s, u);
    SameBytes(s, u);
    SameOperand(i.m, if i.IModify? then i.f else LD, s, u);
    var pc := if i.ITest? then Address(i.m, Past1(s), s.mem).r.pc else Address(i.m, s.core, s.mem).r.pc;
    KeptChanges(s.core, u.core);
    KeptChanges(AtPC(s.core, pc), AtPC(u.core, pc));
    if i.IWrite? {
      StoredKept(s.core, u.core, i.v);
    }
  }

  predicate Calls(i: Instr) {
    i.ICall? || i.IReturn? || i.IBranchSub? || i.IBreak? || i.IInterrupt? || i.IReturnInt?
  }

  lemma PullBlind(i: Instr, s: Cpu, u: Cpu)
    requires SameMachine(s, u) && (i.IReturn? || i.IReturnInt?)
    ensures SameOutcome(i, s, u)
  {
    hide StackAddr, Word, Unpack;
    SameCore(s, u);
  }

  lemma CallBlind(i: Instr, s: Cpu, u: Cpu)
    requires SameMachine(s, u) && Proper(i) && Calls(i) && !i.IReturn? && !i.IReturnInt?
    ensures SameOutcome(i, s, u)
  {
    hide Phys, Word, CallMem, BranchMem, BreakMem, EntryMem, SignExtend;
    SameCore(s, u);
    SamePushes(s, u);
  }

  lemma SameMove(s: Cpu, u: Cpu, mem: map<int, byte>)
    requires SameMachine(s, u)
    ensures FirstByte(s) == FirstByte(u) && Length(s) == Length(u) && Kept(Finished(s, mem), Finished(u, mem))
  {
    hide Slot1, Slot2, Slot3, WordAt, Pushed, Bytes;
    SameCore(s, u);
    SamePushes(s, u);
    Twice(s.core.r.pc);
    SameSlots(s.core.r, u.core.r);
  }

  lemma SameSlots(r: Regs, q: Regs)
    requires r.mpr == q.mpr && r.sp == q.sp
    ensures Slot1(r) == Slot1(q) && Slot2(r) == Slot2(q) && Slot3(r) == Slot3(q)
  {
  }

  lemma MoveBlind(k: MoveKind, s: Cpu, u: Cpu)
    requires SameMachine(s, u)
    ensures SameOutcome(IMove(k), s, u)
  {
    hide Copy, FirstByte, Length, Finished, Kept;
    SameCore(s, u);
    SameMove(s, u, Copy(k, s.core.r.mpr, FirstByte(s), Length(s)).mem);
  }

  predicate Stacks(i: Instr) {
    i.IPush? || i.IPull? || i.IPullP? || Places(i)
  }

  predicate Places(i: Instr) {
    i.IToBanks? || i.IFromBanks? || i.IStore? || i.IBit?
  }

  lemma StackBlind(i: Instr, s: Cpu, u: Cpu)
    requires SameMachine(s, u) && Proper(i) && (i.IPush? || i.IPull? || i.IPullP?)
    ensures SameOutcome(i, s, u)
  {
    hide StackAddr, Pack, Unpack, NZ;
    SameCore(s, u);
  }

  lemma ByteBlind(i: Instr, s: Cpu, u: Cpu)
    requires SameMachine(s, u) && Proper(i) && Places(i)
    ensures SameOutcome(i, s, u)
  {
    hide ZeroPage, First, Banked, OrBanks, BitPut;
    SameCore(s, u);
    SameBytes(s, u);
  }

  predicate Jumps(i: Instr) {
    i.IBranch? || i.IBranchBit? || i.IJump? || i.IJumpIndirect?
  }

  lemma BranchBlind(taken: Option<(FlagName, bool)>, s: Cpu, u: Cpu)
    requires SameMachine(s, u)
    ensures SameOutcome(IBranch(taken), s, u)
  {
    hide First, Displaced, Kept;
    SameCore(s, u);
    SameBytes(s, u);
    KeptChanges(s.core, u.core);
  }

  lemma BitBranchBlind(k: Slot, on: bool, s: Cpu, u: Cpu)
    requires SameMachine(s, u)
    ensures SameOutcome(IBranchBit(k, on), s, u)
  {
    hide ZeroPage, First, Second, Displaced, Kept;
    SameCore(s, u);
    SameBytes(s, u);
    KeptChanges(s.core, u.core);
  }

  lemma JumpBlind(i: Instr, s: Cpu, u: Cpu)
    requires SameMachine(s, u) && Proper(i) && (i.IJump? || i.IJumpIndirect?)
    ensures SameOutcome(i, s, u)
  {
    hide Word, WordAt, First, Second, Kept;
    SameCore(s, u);
    SameBytes(s, u);
    KeptChanges(s.core, u.core);
    if i.IJumpIndirect? {
      assert Index(s.core.r, i.inx) == Index(u.core.r, i.inx);
    }
  }

  lemma ResetBlind(s: Cpu, u: Cpu)
    requires SameMachine(s, u)
    ensures SameOutcome(IReset, s, u)
  {
    hide Word;
    SameCore(s, u);
  }

  lemma OtherBlind(i: Instr, s: Cpu, u: Cpu)
    requires SameMachine(s, u) && Proper(i) && !Operates(i) && !Calls(i) && !Stacks(i) && !Jumps(i) && !i.IMove? &&
      !i.IReset?
    ensures SameOutcome(i, s, u)
  {
    hide AluEval, Poll, NZ, Kept, Set;
    SameCore(s, u);
    var c, e := s.core, u.core;
    KeptChanges(c, e);
    match i {
      case IAlu(f, dt) =>
        AluSees(f, c.r, e.r, Get(c.r, dt));
        KeptChanges(WithReg(c, dt, AluEval(f, c.r, Get(c.r, dt)).res),
          WithReg(e, dt, AluEval(f, c.r, Get(c.r, dt)).res));
      case ISpeed(div) => SpeedKept(c, e, div);
      case ISet(f) => KeptChanges(Poll(c), Poll(e));
      case ITransfer(src, dst) => KeptChanges(WithReg(c, dst, Get(c.r, src)), WithReg(e, dst, Get(c.r, src)));
      case ISwap(d1, d2) => KeptChanges(WithReg(c, d1, Get(c.r, d2)), WithReg(e, d1, Get(c.r, d2)));
      case _ =>
    }
  }

  lemma SamePoll(c: Core, e: Core)
    requires Kept(c, e)
    ensures Kept(Poll(c), Poll(e))
  {
  }

  /** What an instruction does depends on no scratch register. */
  lemma ResultBlind(i: Instr, s: Cpu, u: Cpu)
    requires SameMachine(s, u) && Proper(i)
    ensures SameOutcome(i, s, u)
  {
    hide SameMachine, SameOutcome, Proper;
    match i {
      case IRead(m, f, dt, quiet) => ReadBlind(m, f, dt, quiet, s, u);
      case IMem(m, f) => MemBlind(m, f, s, u);
      case IMove(k) => MoveBlind(k, s, u);
      case IBranch(taken) => BranchBlind(taken, s, u);
      case IBranchBit(k, on) => BitBranchBlind(k, on, s, u);
      case _ =>
        if Operates(i) {
          PlaceBlind(i, s, u);
        } else if i.IReturn? || i.IReturnInt? {
          PullBlind(i, s, u);
        } else if Calls(i) {
          CallBlind(i, s, u);
        } else if Places(i) {
          ByteBlind(i, s, u);
        } else if Stacks(i) {
          StackBlind(i, s, u);
        } else if Jumps(i) {
          JumpBlind(i, s, u);
        } else if i.IReset? {
          ResetBlind(s, u);
        } else {
          OtherBlind(i, s, u);
        }
    }
  }

  lemma ChosenSame(s: Cpu, lines: Lines)
    requires AtBoundary(false, s)
    ensures var d := Begin(s, lines); var (i, u) := Chosen(Visible(s), lines);
      d.Run? && 0 <= d.opcode < ENTRIES && i == InstrOf(d.opcode, d.s.core.r.p.t) && SameMachine(d.s, u)
  {
    hide InstrOf, Phys, Begin;
    BeginServes(s, lines);
    BoundaryReady(false, Begin(s, lines).s);
    BeginIs(s, lines);
    BeginIs(Bare(Visible(s)), lines);
    BoundaryReady(false, s);
  }

  lemma OutcomeSeen(i: Instr, s: Cpu, u: Cpu, t: Cpu)
    requires SameMachine(s, u) && Proper(i) && Ends(i, s, t)
    ensures Visible(t) == Machine(View(Closing(i, Result(i, u).c)), Result(i, u).mem) &&
      Result(i, u).cycles == Result(i, s).cycles
  {
    hide Result, EndCore, Fetch, View, Kept, Proper, PollsAtEnd, ClearsAtEnd;
    ResultBlind(i, s, u);
    KeptView(Result(i, s).c, Result(i, u).c, PollsAtEnd(i), ClearsAtEnd(i));
  }

  /** One step of the generated table, from any boundary, is one step of the instruction set. */
  lemma StepRefines(table: Table, s: Cpu, lines: Lines) returns (t: Cpu)
    requires IsTable(table) && AtBoundary(false, s)
    ensures var d := Begin(s, lines);
      && d.Run? && 0 <= d.opcode < ENTRIES
      && Completes(EntryFor(table, d), d.s, Next(Visible(s), lines).1, t) && Visible(t) == Next(Visible(s), lines).0
  {
    hide InstrOf, Completes, Result, Ends, Proper, Visible, Entry, AtBoundary, Raise, View, SameOutcome;
    ChosenSame(s, lines);
    var d := Begin(s, lines);
    var (i, u) := Chosen(Visible(s), lines);
    t := EntryRefines(d.opcode, d.s.core.r.p.t, EntryFor(table, d), d.s);
    OutcomeSeen(i, d.s, u, t);
  }

  /**
   Over whole runs of the generated table, whatever the devices request in between, the machine goes
   through the states of the instruction set, in the same number of cycles.
   */
  lemma {:induction false} RunsRefine(table: Table, s: Cpu, es: seq<Event>, t: Cpu)
    requires IsTable(table) && AtBoundary(false, s) && Runs(table, s, es, t) && BranchesStay(table, s, es)
    ensures Visible(t) == IsaRun(Visible(s), Requests(es)) && Cycles(es) == IsaCycles(Visible(s), Requests(es))
    decreases |es|
  {
    hide Completes, Entry, BranchTarget, EntryFor, Begin, AtBoundary, Visible, Next, Ready;
    if |es| > 0 {
      var d := Begin(s, es[0].lines);
      var n, u := RunStep(table, s, es[0].lines);
      var v := StepRefines(table, s, es[0].lines);
      CompletesOnce(EntryFor(table, d), d.s, n, u, es[0].cycles, Ticks(EntryFor(table, d), d.s, es[0].cycles));
      CompletesOnce(EntryFor(table, d), d.s, n, u, Next(Visible(s), es[0].lines).1, v);
      RunsRefine(table, u, es[1..], t);
      assert Requests(es)[1..] == Requests(es[1..]);
    }
  }
}
