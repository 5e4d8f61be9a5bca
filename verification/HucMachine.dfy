/**
 The HuC6280 core as the generated microcode sees it: registers, bus pins and RAM, the
 one-line statements the generator writes into its cases, and the cycle driver that
 dispatches those cases on TCU.
 */
module HucMachine {
  import opened BitOps

  type byte = v: int | 0 <= v < 256
  type Slot = i: int | 0 <= i < 8
  type File8 = s: seq<int> | |s| == 8 witness [0, 0, 0, 0, 0, 0, 0, 0]

  // ----- State -----

  datatype Flags = Flags(c: bool, z: bool, i: bool, d: bool, b: bool, t: bool, v: bool, n: bool)

  datatype Lines = Lines(irq2: bool, irq1: bool, tiq: bool)

  datatype Regs = Regs(
    a: int, x: int, y: int, sp: int, pc: int, ta: int, tr: File8, mpr: File8, mpl: int, p: Flags)

  /** IRQD (kept enabled-high), IRQR, IRQR_polled and do_IRQ. */
  datatype Irq = Irq(enabled: Lines, raised: Lines, polled: Lines, pending: bool)

  /**
   What the statements of a case work on: registers, the data and address pins, interrupt
   latches. `fault` records what C++ leaves undefined: an MPR index beyond 7, or a TCU
   without a case.
   */
  datatype Core = Core(
    r: Regs, d: int, addr: int, bm: bool, irq: Irq, clockDiv: int, timerOn: bool, fault: bool)

  datatype Cpu = Cpu(core: Core, tcu: int, rd: bool, wr: bool, mem: map<int, byte>)

  function FlagDigits(p: Flags): seq<bool> {
    [p.c, p.z, p.i, p.d, p.b, p.t, p.v, p.n]
  }

  /** P.u, the status register as one byte: N V T B D I Z C. */
  function Pack(p: Flags): byte {
    assert Pow2(8) == 256;
    FromDigits(FlagDigits(p))
  }

  function Unpack(u: nat): Flags {
    Flags(Digit(u, 0), Digit(u, 1), Digit(u, 2), Digit(u, 3),
          Digit(u, 4), Digit(u, 5), Digit(u, 6), Digit(u, 7))
  }

  lemma UnpackPack(p: Flags)
    ensures Unpack(Pack(p)) == p
  {
    forall k: nat | k < 8
      ensures Digit(Pack(p), k) == FlagDigits(p)[k]
    {
      DigitOfDigits(FlagDigits(p), k);
    }
  }

  function Read(mem: map<int, byte>, addr: int): byte {
    if addr in mem then mem[addr] else 0
  }

  // ----- Addresses -----

  predicate Word16(v: int) {
    0 <= v < 65536
  }

  predicate AlignedBank(m: int) {
    0 <= m <= 0x1FE000 && m % 8192 == 0
  }

  /** MPR[v >> 13] | (v & 0x1FFF) */
  function Phys(mpr: File8, v: int): int
    requires Word16(v)
  {
    if mpr[v / 8192] < 0 then 0 else BitOr(mpr[v / 8192], v % 8192)
  }

  /** MPR[1] | v */
  function ZeroPage(mpr: File8, v: int): int {
    if mpr[1] < 0 || v < 0 then 0 else BitOr(mpr[1], v)
  }

  /** MPR[1] | 0x100 | S */
  function StackAddr(mpr: File8, sp: int): int {
    if mpr[1] < 0 || sp < 0 then 0 else BitOr(BitOr(mpr[1], 0x100), sp)
  }

  /** lo | (hi << 8) */
  function Word(lo: int, hi: int): int {
    if lo < 0 || hi < 0 then 0 else BitOr(lo, 256 * hi)
  }

  function Inc16(v: int): int { (v + 1) % 65536 }

  function Dec16(v: int): int { (v - 1) % 65536 }

  function Inc8(v: int): int { (v + 1) % 256 }

  function Dec8(v: int): int { (v - 1) % 256 }

  // ----- Operands and registers -----

  datatype Reg = RA | RX | RY | RS | RPC | RTA | RTR(i: Slot)

  datatype Src =
    | Reg(g: Reg)
    | Data                              // core.pins.D
    | Num(n: int)
    | Hi(g: Reg)                        // r >> 8
    | Lo(g: Reg)                        // r & 0xFF
    | Signed(g: Reg)                    // (i8) r
    | SignedData                        // (i8) core.pins.D
    | Status(brk: bool, keepT: bool)    // P.u with bit 4 set or cleared, bit 5 kept or cleared

  function Get(r: Regs, g: Reg): int {
    match g
    case RA => r.a
    case RX => r.x
    case RY => r.y
    case RS => r.sp
    case RPC => r.pc
    case RTA => r.ta
    case RTR(i) => r.tr[i]
  }

  function Set(r: Regs, g: Reg, v: int): Regs {
    match g
    case RA => r.(a := v)
    case RX => r.(x := v)
    case RY => r.(y := v)
    case RS => r.(sp := v)
    case RPC => r.(pc := v)
    case RTA => r.(ta := v)
    case RTR(i) => r.(tr := r.tr[i := v])
  }

  function SignExtend(v: int): int {
    if v % 256 < 128 then v % 256 else v % 256 - 256
  }

  function Eval(s: Core, e: Src): int {
    match e
    case Reg(g) => Get(s.r, g)
    case Data => s.d
    case Num(n) => n
    case Hi(g) => Get(s.r, g) / 256
    case Lo(g) => Get(s.r, g) % 256
    case Signed(g) => SignExtend(Get(s.r, g))
    case SignedData => SignExtend(s.d)
    case Status(brk, keepT) => Pack(s.r.p.(b := brk, t := keepT && s.r.p.t))
  }

  // ----- The arithmetic functions al_* -----

  datatype AluOp =
    | ORA | AND | EOR | ADC | SBC | CMP | CPX | CPY | BIT | LD
    | INC | DEC | LSR | ROR | ROL | ASL | TRB | TSB

  /** The value for the destination, the operand after in-place changes, the flags. */
  datatype AluOut = AluOut(res: int, src: int, p: Flags)

  predicate Stores(f: AluOp) {
    f !in {CMP, CPX, CPY, BIT}
  }

  predicate Bit6(v: int) { v / 64 % 2 == 1 }

  predicate Bit7(v: int) { v / 128 % 2 == 1 }

  function NZ(p: Flags, v: int): Flags {
    p.(z := v == 0, n := Bit7(v))
  }

  /** V of A + v giving out: ~(A ^ v) & (A ^ out), bit 7. */
  predicate Overflow(a: int, v: int, out: int) {
    Bit7(a) == Bit7(v) && Bit7(a) != Bit7(out)
  }

  function AddBinary(a: int, v: int, p: Flags): AluOut {
    var out := a + v + Bit(p.c);
    AluOut(out % 256, v, NZ(p, out % 256).(c := out > 255, v := Overflow(a, v, out)))
  }

  function AddDecimal(a: int, v: int, p: Flags): AluOut {
    var lo := a % 16 + v % 16 + Bit(p.c);
    var lo6 := if lo > 9 then lo + 6 else lo;
    var sum := v / 16 * 16 + a / 16 * 16 + (if lo6 > 15 then 16 else 0) + lo6 % 16;
    var out := if sum > 0x9F then sum + 0x60 else sum;
    AluOut(out % 256, v, NZ(p, out % 256).(c := out > 255))
  }

  /** `w` is the operand after `^= 0xFF`. */
  function SubDecimal(a: int, w: int, p: Flags): AluOut {
    var lo := a % 16 + w % 16 + Bit(p.c);
    var lo6 := if lo <= 15 then lo - 6 else lo;
    var sum := w / 16 * 16 + a / 16 * 16 + (if lo6 > 15 then 16 else 0) + lo6 % 16;
    var out := if sum <= 255 then sum - 0x60 else sum;
    AluOut(out % 256, w, NZ(p, out % 256).(c := out > 255))
  }

  function Compare(r: int, v: int, p: Flags): AluOut {
    var o := (r - v) % 512;
    AluOut(0, v, p.(c := o < 256, z := o % 256 == 0, n := Bit7(o)))
  }

  function AluEval(f: AluOp, s: Regs, v: byte): AluOut
    requires 0 <= s.a < 256
  {
    var p := s.p;
    match f
    case ORA => AluOut(BitOr(s.a, v), v, NZ(p, BitOr(s.a, v)))
    case AND => AluOut(BitAnd(s.a, v), v, NZ(p, BitAnd(s.a, v)))
    case EOR => AluOut(BitXor(s.a, v), v, NZ(p, BitXor(s.a, v)))
    case ADC => if p.d then AddDecimal(s.a, v, p) else AddBinary(s.a, v, p)
    case SBC => if p.d then SubDecimal(s.a, 255 - v, p) else AddBinary(s.a, 255 - v, p)
    case CMP => Compare(s.a, v, p)
    case CPX => Compare(s.x, v, p)
    case CPY => Compare(s.y, v, p)
    case BIT => AluOut(0, v, p.(v := Bit6(v), n := Bit7(v), z := BitAnd(v, s.a) == 0))
    case LD => AluOut(v, v, NZ(p, v))
    case INC => AluOut((v + 1) % 256, v, NZ(p, (v + 1) % 256))
    case DEC => AluOut((v - 1) % 256, v, NZ(p, (v - 1) % 256))
    case LSR => AluOut(v / 2, v, NZ(p, v / 2).(c := v % 2 == 1))
    case ROR =>
      var o := v / 2 + 128 * Bit(p.c);
      AluOut(o, v, NZ(p, o).(c := v % 2 == 1))
    case ROL =>
      var o := v * 2 % 256 + Bit(p.c);
      AluOut(o, o, NZ(p, o).(c := Bit7(v)))
    case ASL => AluOut(v * 2 % 256, v * 2 % 256, NZ(p, v * 2 % 256).(c := Bit7(v)))
    case TRB => AluOut(BitAnd(255 - s.a, v), v, p.(z := BitAnd(s.a, v) == 0, v := Bit6(v), n := Bit7(v)))
    case TSB => AluOut(BitOr(v, s.a), v, p.(z := BitOr(v, s.a) == 0, v := Bit6(v), n := Bit7(v)))
  }

  // ----- One-line statements -----

  datatype FlagName = FC | FZ | FI | FD | FT | FV | FN

  function GetFlag(p: Flags, f: FlagName): bool {
    match f
    case FC => p.c case FZ => p.z case FI => p.i case FD => p.d
    case FT => p.t case FV => p.v case FN => p.n
  }

  function SetFlag(p: Flags, f: FlagName, on: bool): Flags {
    match f
    case FC => p.(c := on) case FZ => p.(z := on) case FI => p.(i := on) case FD => p.(d := on)
    case FT => p.(t := on) case FV => p.(v := on) case FN => p.(n := on)
  }

  datatype Width = W8 | W16 | W32

  function Mask(w: Width, v: int): int {
    match w
    case W8 => v % 256
    case W16 => v % 65536
    case W32 => v % 0x1_0000_0000
  }

  datatype Micro =
    | AddrMapped(v: Src)                      // pins.Addr = MPR[v >> 13] | (v & 0x1FFF)
    | AddrPage1(v: Src)                       // pins.Addr = MPR[1] | v
    | AddrStack                               // pins.Addr = MPR[1] | 0x100 | S
    | AddrFixed(n: nat)                       // pins.Addr = n
    | AddrResetStack                          // pins.Addr = S | 0x100
    | AddrNext                                // pins.Addr++
    | Out(v: Src)                             // pins.D = v
    | Move(dst: Reg, v: Src)                  // dst = v
    | Sum(dst: Reg, l: Src, r: Src, w: Width) // dst = (l + r) & mask
    | Join(dst: Reg, lo: Src, hi: Src)        // dst = lo | hi << 8
    | Toggle(dst: Reg)                        // dst ^= 1
    | Zigzag(dst: Reg)                        // dst = (dst + (TR[3] ? -1 : 1)) & 0xFFFF
    | Alu(f: AluOp, dst: Reg, v: Src)
    | SetNZ(dst: Reg)
    | TestMask(l: Src, m: Src)                // Z, V, N of TST
    | SetBit(dst: Reg, k: Slot)
    | ResetBit(dst: Reg, k: Slot)
    | PutFlag(flag: FlagName, on: bool)
    | LoadStatus                              // P.u = pins.D
    | DropBrk                                 // P.u &= 0xEF
    | BlockMode(on: bool)                     // pins.BM
    | StoreBanks                              // TAM
    | LoadBanks                               // TMA
    | Speed(n: nat)
    | ResetMachine                            // MPR[7] = MPL = 0, IRQD.u = 7, timer off, clock_div = 12
    | PollIrqs

  function Mapped(s: Core, v: int): Core {
    if Word16(v) then s.(addr := Phys(s.r.mpr, v)) else s.(addr := 0, fault := true)
  }

  predicate AnyLine(l: Lines, m: Lines) {
    (l.irq2 && m.irq2) || (l.irq1 && m.irq1) || (l.tiq && m.tiq)
  }

  function Poll(s: Core): Core {
    s.(irq := s.irq.(pending := AnyLine(s.irq.enabled, s.irq.raised) && !s.r.p.i, polled := s.irq.raised))
  }

  function SetBanks(mpr: File8, mask: nat, value: int, k: nat): File8
    requires k <= 8
    decreases 8 - k
  {
    if k == 8 then mpr
    else SetBanks(if Digit(mask, k) then mpr[k := value] else mpr, mask, value, k + 1)
  }

  function OrBanks(mpr: File8, mask: nat, acc: nat, k: nat): nat
    requires k <= 8
    decreases 8 - k
  {
    if k == 8 then acc
    else OrBanks(mpr, mask, if Digit(mask, k) && mpr[k] >= 0 then BitOr(acc, mpr[k] / 8192) else acc, k + 1)
  }

  /** The byte an operand holds; the statements that use it are only emitted on bytes. */
  function AsByte(v: int): byte {
    v % 256
  }

  function DoAlu(s: Core, f: AluOp, dst: Reg, v: Src): Core {
    var o := AluEval(f, s.r.(a := AsByte(s.r.a)), AsByte(Eval(s, v)));
    var s1 := if o.src == Eval(s, v) then s
              else if v.Reg? then s.(r := Set(s.r, v.g, o.src))
              else if v.Data? then s.(d := o.src)
              else s;
    var r1 := if Stores(f) then Set(s1.r, dst, o.res) else s1.r;
    s1.(r := r1.(p := o.p))
  }

  function Flip(v: int): int {
    if v % 2 == 0 then v + 1 else v - 1
  }

  /** Statements that only assign registers. */
  function DoRegs(m: Micro, s: Core): Regs {
    var r := s.r;
    match m
    case Move(dst, v) => Set(r, dst, Mask(W32, Eval(s, v)))
    case Sum(dst, l, v, w) => Set(r, dst, Mask(w, Eval(s, l) + Eval(s, v)))
    case Join(dst, lo, hi) => Set(r, dst, Word(Eval(s, lo), Eval(s, hi)))
    case Toggle(dst) => Set(r, dst, Flip(Get(r, dst)))
    case Zigzag(dst) => Set(r, dst, (Get(r, dst) + (if r.tr[3] != 0 then -1 else 1)) % 65536)
    case SetNZ(dst) => r.(p := NZ(r.p, Get(r, dst)))
    case TestMask(l, m) =>
      var v := AsByte(Eval(s, m));
      r.(p := r.p.(z := BitAnd(v, AsByte(Eval(s, l))) == 0, v := Bit6(v), n := Bit7(v)))
    case SetBit(dst, k) =>
      if Digit(AsByte(Get(r, dst)), k) then r else Set(r, dst, Get(r, dst) + Pow2(k))
    case ResetBit(dst, k) =>
      if Digit(AsByte(Get(r, dst)), k) then Set(r, dst, Get(r, dst) - Pow2(k)) else r
    case PutFlag(f, on) => r.(p := SetFlag(r.p, f, on))
    case LoadStatus => r.(p := Unpack(AsByte(s.d)))
    case DropBrk => r.(p := r.p.(b := false))
    case StoreBanks =>
      if r.ta > 0 then r.(mpl := r.a, mpr := SetBanks(r.mpr, r.ta, r.a * 8192, 0)) else r
    case LoadBanks =>
      var mpl := if r.tr[0] > 0 then OrBanks(r.mpr, r.tr[0], 0, 0) else r.mpl;
      r.(mpl := mpl, a := mpl)
    case _ => r
  }

  function Do(m: Micro, s: Core): Core {
    match m
    case AddrMapped(v) => Mapped(s, Eval(s, v))
    case AddrPage1(v) => s.(addr := ZeroPage(s.r.mpr, Eval(s, v)))
    case AddrStack => s.(addr := StackAddr(s.r.mpr, s.r.sp))
    case AddrFixed(n) => s.(addr := n)
    case AddrResetStack => s.(addr := if s.r.sp < 0 then 0 else BitOr(s.r.sp, 0x100))
    case AddrNext => s.(addr := s.addr + 1)
    case Out(v) => s.(d := Eval(s, v))
    case Alu(f, dst, v) => DoAlu(s, f, dst, v)
    case BlockMode(on) => s.(bm := on)
    case Speed(n) => s.(clockDiv := n)
    case ResetMachine =>
      s.(r := s.r.(mpr := s.r.mpr[7 := 0], mpl := 0),
         irq := s.irq.(enabled := Lines(true, true, true)), timerOn := false, clockDiv := 12)
    case PollIrqs => Poll(s)
    case _ => s.(r := DoRegs(m, s))
  }

  // ----- Case bodies -----

  datatype Cond =
    | NotDecimal                    // !P.D
    | FlagIs(f: FlagName, on: bool)
    | DataBit(k: Slot, on: bool)    // (pins.D & (1 << k)) is zero or not

  predicate Holds(c: Cond, s: Core) {
    match c
    case NotDecimal => !s.r.p.d
    case FlagIs(f, on) => GetFlag(s.r.p, f) == on
    case DataBit(k, on) => Digit(AsByte(s.d), k) == on
  }

  datatype Op =
    | Just(m: Micro)
    | BrEnd(c: Cond)     // if (c) { fetch at PC; RD = 1; T = 0; poll; TCU = 0; return; }
    | SkipIf(c: Cond)    // if (c) TCU++
    | LoopBack           // if (TR[2]) TCU -= 6
    | PinRD(on: bool)
    | PinWR(on: bool)
    | ClearTCU

  /** A case either runs to its closing brace or has returned. */
  datatype Flow = Go(s: Cpu) | Ret(s: Cpu)

  /** Addr = map(PC); PC = (PC + 1) & 0xFFFF */
  function Fetch(s: Core): Core {
    var s1 := Mapped(s, s.r.pc);
    s1.(r := s1.r.(pc := Inc16(s1.r.pc)))
  }

  function WithT(s: Core, on: bool): Core {
    s.(r := s.r.(p := s.r.p.(t := on)))
  }

  function BranchEnd(s: Core): Core {
    Poll(WithT(Fetch(s), false))
  }

  function Step(op: Op, s: Cpu): Flow {
    match op
    case Just(m) => Go(s.(core := Do(m, s.core)))
    case BrEnd(c) => if Holds(c, s.core) then Ret(s.(core := BranchEnd(s.core), rd := true, tcu := 0)) else Go(s)
    case SkipIf(c) => Go(if Holds(c, s.core) then s.(tcu := s.tcu + 1) else s)
    case LoopBack => Go(if s.core.r.tr[2] != 0 then s.(tcu := s.tcu - 6) else s)
    case PinRD(on) => Go(s.(rd := on))
    case PinWR(on) => Go(s.(wr := on))
    case ClearTCU => Go(s.(tcu := 0))
  }

  function Then(f: Flow, op: Op): Flow {
    if f.Ret? then f else Step(op, f.s)
  }

  function RunOps(ops: seq<Op>, f: Flow): Flow {
    if |ops| == 0 then f else Then(RunOps(ops[..|ops| - 1], f), ops[|ops| - 1])
  }

  lemma {:induction false} RunOpsAppend(xs: seq<Op>, ys: seq<Op>, f: Flow)
    ensures RunOps(xs + ys, f) == RunOps(ys, RunOps(xs, f))
    decreases |ys|
  {
    if ys == [] {
      assert xs + ys == xs;
    } else {
      var n := |ys| - 1;
      assert (xs + ys)[..|xs + ys| - 1] == xs + ys[..n];
      RunOpsAppend(xs, ys[..n], f);
    }
  }

  // ----- The driver: one call of internal_cycle -----

  /** A read requested at the end of the last cycle delivers D; TCU counts up. */
  function Latch(s: Cpu): Cpu {
    s.(core := if s.rd then s.core.(d := Read(s.mem, s.core.addr)) else s.core, tcu := s.tcu + 1)
  }

  /** A write requested by this cycle reaches memory at its end, as a u8. */
  function Commit(s: Cpu): Cpu {
    if s.wr then s.(mem := s.mem[s.core.addr := AsByte(s.core.d)]) else s
  }

  /** The generated switch: case k is cases[k - 1]. */
  function Tick(cases: seq<seq<Op>>, s: Cpu): Cpu {
    var s1 := Latch(s);
    if 1 <= s1.tcu <= |cases| then Commit(RunOps(cases[s1.tcu - 1], Go(s1)).s)
    else Commit(s1.(core := s1.core.(fault := true)))
  }

  function Ticks(cases: seq<seq<Op>>, s: Cpu, n: nat): Cpu
    decreases n
  {
    if n == 0 then s else Ticks(cases, Tick(cases, s), n - 1)
  }

  /** Instruction boundary: the next opcode byte is on order. */
  predicate Boundary(s: Cpu) {
    s.tcu == 0 && s.rd && !s.wr && Word16(s.core.r.pc) && s.core.addr == Phys(s.core.r.mpr, Dec16(s.core.r.pc))
  }

  /** From `s`, exactly n cycles of `cases` make one instruction, ending in `t`. */
  predicate Completes(cases: seq<seq<Op>>, s: Cpu, n: nat, t: Cpu) {
    && n > 0
    && Ticks(cases, s, n) == t
    && t.tcu == 0
    && forall k :: 0 < k < n ==> Ticks(cases, s, k).tcu != 0
  }
}
