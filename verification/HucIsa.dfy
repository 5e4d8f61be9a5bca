/**
 The instruction set as a programmer sees it: what each instruction leaves in registers and memory,
 and how many cycles it takes, with no mention of cases or pins. (Address, which HucOperands defines, also
 sets the scratch registers; only its addr and pc are used here.)
 */
module HucIsa {
  import opened BitOps
  import opened HucMachine
  import opened HucCertify
  import opened HucText
  import opened HucOperands
  import opened HucTMode
  import opened HucBlockMove
  import opened HucCalls
  import opened HucInterrupts

  /** The parameters the instruction table uses. */
  predicate Proper(i: Instr) {
    match i
    case IRead(m, f, dt, _) => IsMode(m) && IsMain(dt) && f !in {INC, DEC, LSR, ROR, ROL, ASL, TRB, TSB}
    case IMem(m, f) => IsMode(m) && TForm(f)
    case IWrite(m, v) => IsMode(m) && !m.Imm? && IsStored(v)
    case IModify(m, f) => IsMode(m) && (m.Zp? || m.Abso?) && Stores(f) && !Splits(f)
    case ITest(m) => IsMode(m) && (m.Zp? || m.Abso?)
    case IAlu(f, dt) => IsMain(dt) && Stores(f) && !Splits(f)
    case IClear(t) => t.Register? ==> IsMain(t.g)
    case ITransfer(src, dst) => (IsMain(src) || src == RS) && IsMain(dst)
    case ISwap(d1, d2) => IsMain(d1) && IsMain(d2)
    case IPush(v) => v.Status? || (v.Reg? && IsMain(v.g))
    case IPull(dt) => IsMain(dt)
    case IJumpIndirect(inx) => IsIndex(inx)
    case IInterrupt(vector) => 256 <= vector < 65535
    case _ => true
  }

  /** The core before the next opcode is fetched, memory, and the cycles of the whole instruction. */
  datatype Outcome = Outcome(c: Core, mem: map<int, byte>, cycles: nat)

  /** The operand bytes, by their distance from PC. */
  function First(s: Cpu): byte
    requires Word16(s.core.r.pc)
  {
    Read(s.mem, Phys(s.core.r.mpr, s.core.r.pc))
  }

  function Second(s: Cpu): byte {
    Read(s.mem, Phys(s.core.r.mpr, Inc16(s.core.r.pc)))
  }

  /** Past one or two operand bytes. */
  function Past1(s: Cpu): Core {
    AtPC(s.core, Inc16(s.core.r.pc))
  }

  function Past2(s: Cpu): Core {
    AtPC(s.core, Inc16(Inc16(s.core.r.pc)))
  }

  function FormCycles(m: Mode): nat {
    match m
    case Imm => 2
    case Zp(_) => 4
    case Abso(_) => 5
    case _ => 7
  }

  function WithFlags(c: Core, p: Flags): Core {
    c.(r := c.r.(p := p))
  }

  function WithReg(c: Core, g: Reg, v: int): Core {
    c.(r := Set(c.r, g, v))
  }

  function WithResult(c: Core, f: AluOp, dt: Reg, o: AluOut): Core {
    WithFlags(if Stores(f) then WithReg(c, dt, o.res) else c, o.p)
  }

  /** v with bit k as given. */
  function BitPut(v: byte, k: Slot, on: bool): int {
    if Digit(v, k) == on then v else if on then v + Pow2(k) else v - Pow2(k)
  }

  /** Z, V and N of TST. */
  function Tested(p: Flags, v: byte, mask: byte): Flags {
    p.(z := BitAnd(v, mask) == 0, v := Bit6(v), n := Bit7(v))
  }

  function Displaced(pc: int, offset: byte): int {
    (pc + SignExtend(offset)) % 65536
  }

  /** The banks a mask selects all take one value. */
  function Banked(mpr: File8, mask: nat, value: int): File8 {
    seq(8, k requires 0 <= k < 8 => if Digit(mask, k) then value else mpr[k])
  }

  function BreakStatus(p: Flags): byte {
    Pack(p.(b := true, t := false))
  }

  function BreakMem(s: Cpu): map<int, byte> {
    var r, pc := s.core.r, Inc16(s.core.r.pc);
    s.mem[Slot1(r) := AsByte(pc / 256)][Slot2(r) := AsByte(pc % 256)][Slot3(r) := BreakStatus(r.p)]
  }

  function BreakCore(s: Cpu): Core {
    var r := s.core.r;
    s.core.(r := r.(pc := WordAt(r.mpr, BreakMem(s), 0xFFF6), sp := Dec8(Dec8(Dec8(r.sp))),
                    p := r.p.(i := true, d := false, t := false)))
  }

  function ResetCore(s: Cpu): Core {
    var r := s.core.r;
    s.core.(r := r.(pc := Word(Read(s.mem, 0x1FFE), Read(s.mem, 0x1FFF)), sp := 0, mpr := r.mpr[7 := 0], mpl := 0,
                    p := r.p.(i := true, d := false, t := false)),
            irq := s.core.irq.(enabled := Lines(true, true, true)), timerOn := false, clockDiv := 12)
  }

  function Result(i: Instr, s: Cpu): Outcome
    requires Ready(s) && Proper(i)
  {
    var c, r, mem := s.core, s.core.r, s.mem;
    match i
    case IRead(m, f, dt, _) =>
      var a := Address(m, c, mem);
      var o := AluEval(f, r, Read(mem, a.addr));
      Outcome(WithResult(AtPC(c, a.r.pc), f, dt, o), mem, FormCycles(m) + if Splits(f) && r.p.d then 1 else 0)
    case IMem(m, f) =>
      var a, z := Address(m, c, mem), ZeroPage(r.mpr, r.x);
      var o := AluEval(f, r.(a := Read(mem, z)), Read(mem, a.addr));
      Outcome(WithFlags(AtPC(c, a.r.pc), o.p), mem[z := AsByte(o.res)], FormCycles(m) + if f.ADC? &&
        r.p.d then 4 else 3)
    case IWrite(m, v) =>
      var a := Address(m, c, mem);
      Outcome(AtPC(c, a.r.pc), mem[a.addr := AsByte(Eval(c, v))], FormCycles(m))
    case IModify(m, f) =>
      var a := Address(m, c, mem);
      var o := AluEval(f, r, Read(mem, a.addr));
      Outcome(WithFlags(AtPC(c, a.r.pc), o.p), mem[a.addr := AsByte(o.res)], FormCycles(m) + 2)
    case IBit(k, on) =>
      var a := ZeroPage(r.mpr, First(s));
      Outcome(Past1(s), mem[a := AsByte(BitPut(Read(mem, a), k, on))], 7)
    case ITest(m) =>
      var a := Address(m, Past1(s), mem);
      Outcome(WithFlags(AtPC(c, a.r.pc), Tested(r.p, Read(mem, a.addr), First(s))), mem, FormCycles(m) + 3)
    case IAlu(f, dt) =>
      Outcome(WithResult(c, f, dt, AluEval(f, r, Get(r, dt))), mem, 2)
    case IClear(t) =>
      Outcome(if t.Register? then WithReg(c, t.g, 0) else WithFlags(c, SetFlag(r.p, t.f, false)), mem, 2)
    case ISet(f) =>
      Outcome(WithFlags(if f == FI then Poll(c) else c, SetFlag(r.p, f, true)), mem, 2)
    case ITransfer(src, dst) =>
      Outcome(WithFlags(WithReg(c, dst, Get(r, src)), NZ(r.p, Get(r, src))), mem, 2)
    case IStackPointer => Outcome(WithReg(c, RS, r.x), mem, 2)
    case ISwap(d1, d2) => Outcome(WithReg(WithReg(c, d1, Get(r, d2)), d2, Get(r, d1)), mem, 3)
    case INop => Outcome(c, mem, 2)
    case ISpeed(div) => Outcome(c.(clockDiv := div), mem, 3)
    case IStore(addr) => Outcome(Past1(s), mem[addr := First(s)], 4)
    case IPush(v) => Outcome(WithReg(c, RS, Dec8(r.sp)), mem[Slot1(r) := AsByte(Eval(c, v))], 3)
    case IPull(dt) =>
      var v := Read(mem, StackAddr(r.mpr, Inc8(r.sp)));
      Outcome(WithFlags(WithReg(WithReg(c, RS, Inc8(r.sp)), dt, v), NZ(r.p, v)), mem, 4)
    case IPullP =>
      var v := Read(mem, StackAddr(r.mpr, Inc8(r.sp)));
      Outcome(WithFlags(WithReg(c, RS, Inc8(r.sp)), Unpack(v).(b := false)), mem, 4)
    case IBranch(taken) =>
      if taken.Some? && GetFlag(r.p, taken.value.0) != taken.value.1 then Outcome(Past1(s), mem, 2)
      else Outcome(AtPC(c, Displaced(Inc16(r.pc), First(s))), mem, 4)
    case IBranchBit(k, on) =>
      if Digit(Read(mem, ZeroPage(r.mpr, First(s))), k) != on then Outcome(Past2(s), mem, 6)
      else Outcome(AtPC(c, Displaced(Inc16(Inc16(r.pc)), Second(s))), mem, 8)
    case IJump => Outcome(AtPC(c, Word(First(s), Second(s))), mem, 4)
    case IJumpIndirect(inx) =>
      Outcome(AtPC(c, WordAt(r.mpr, mem, (Word(First(s), Second(s)) + Index(r, inx)) % 65536)), mem, 7)
    case ICall => Outcome(CallCore(s), CallMem(s), 7)
    case IReturn => Outcome(Pulled(s), mem, 7)
    case IBranchSub => Outcome(BranchCore(s), BranchMem(s), 8)
    case IBreak => Outcome(BreakCore(s), BreakMem(s), 8)
    case IInterrupt(vector) => Outcome(EntryCore(vector, s), EntryMem(s), 8)
    case IReturnInt => Outcome(Restored(s), mem, 7)
    case IReset => Outcome(ResetCore(s), mem, 9)
    case IToBanks =>
      var mpl := if First(s) > 0 then r.a else r.mpl;
      Outcome(Past1(s).(r := Past1(s).r.(mpl := mpl, mpr := Banked(r.mpr, First(s), r.a * 8192))), mem, 5)
    case IFromBanks =>
      var mpl := if First(s) > 0 then OrBanks(r.mpr, First(s), 0, 0) else r.mpl;
      Outcome(Past1(s).(r := Past1(s).r.(mpl := mpl, a := mpl)), mem, 4)
    case IMove(k) =>
      var after := Copy(k, r.mpr, FirstByte(s), Length(s)).mem;
      Outcome(Finished(s, after), after, 17 + 6 * Length(s))
  }

  // ----- The end of an instruction -----

  /** CLI, SEI and PLP do not poll for interrupts at their end. */
  predicate PollsAtEnd(i: Instr) {
    i != IClear(Flag(FI)) && i != ISet(FI) && !i.IPullP?
  }

  /** Only SET, PLP and RTI may leave T set. */
  predicate ClearsAtEnd(i: Instr) {
    i != ISet(FT) && !i.IPullP? && !i.IReturnInt?
  }

  /** The next opcode on order, interrupts polled, T cleared. */
  function Closing(i: Instr, e: Core): Core {
    EndCore(PollsAtEnd(i), ClearsAtEnd(i), Fetch(e))
  }

  /** `t` is where the instruction set says `i` leads from `s`; scratch registers and D are free. */
  predicate Ends(i: Instr, s: Cpu, t: Cpu)
    requires Ready(s) && Proper(i)
  {
    && t.tcu == 0 && t.rd && !t.wr && t.mem == Result(i, s).mem
    && View(t.core) == View(Closing(i, Result(i, s).c))
  }
}
