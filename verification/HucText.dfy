/**
 The microcode of every instruction: the cycles the generated switch amounts to, case by case, with
 the RD/WR levels of each.
 */
module HucText {
  import opened Common
  import opened HucMachine
  import opened HucMicrocode
  import opened HucCertify
  import opened HucSwitchgen

  // ----- Parameters of the functions -----

  datatype Target = Register(g: Reg) | Flag(f: FlagName)

  /** The nine operand forms shared by the arithmetic instructions; `inx` is X, Y or nothing. */
  datatype Mode = Imm | Zp(inx: Option<Reg>) | Abso(inx: Option<Reg>) | Ind(inx: Option<Reg>) | IndY

  predicate IsMain(g: Reg) {
    g == RA || g == RX || g == RY
  }

  predicate IsIndex(inx: Option<Reg>) {
    inx.Some? ==> inx.value == RX || inx.value == RY
  }

  /** A, X, Y or the constant 0. */
  predicate IsStored(dt: Src) {
    dt == Num(0) || (dt.Reg? && IsMain(dt.g))
  }

  /** The operations that T mode redirects to memory. */
  predicate TForm(f: AluOp) {
    f.ORA? || f.AND? || f.EOR? || f.ADC?
  }

  /** ADC and SBC end early unless in decimal mode. */
  predicate Splits(f: AluOp) {
    f.ADC? || f.SBC?
  }

  // ----- Cycles in the order the cases appear in the emitted switch -----

  function C(ops: seq<Op>, pins: Pins): Cycle {
    Cycle(ops, Straight, pins, [])
  }

  function Ending(ops: seq<Op>, poll: bool, clearT: bool): Cycle {
    Cycle(ops + FETCH, Straight, READ, EndOps(poll, clearT))
  }

  const NO_OPS: seq<Op> := []
  const JOIN_TA: Op := Just(Join(RTA, Reg(RTA), Reg(RTR(0))))
  const JOIN_PTR: Op := Just(Join(RTA, Reg(RTR(0)), Reg(RTR(1))))
  const JOIN_PC: Op := Just(Join(RPC, Reg(RPC), Reg(RTA)))
  const NEXT_TA: Op := Just(Sum(RTA, Reg(RTA), Num(1), W8))
  const ADD_Y: Op := Just(Sum(RTA, Reg(RTA), Reg(RY), W16))
  const ASK_TA: Op := Just(AddrPage1(Reg(RTA)))
  const ASK_X: Op := Just(AddrPage1(Reg(RX)))
  const ASK_MEM: Op := Just(AddrMapped(Reg(RTA)))
  const SAVE_A: Op := Just(Move(RTR(2), Reg(RA)))
  const RESTORE_A: Op := Just(Move(RA, Reg(RTR(2))))

  function IndexOps(dst: Reg, inx: Option<Reg>, w: Width): seq<Op> {
    if inx.Some? then [Just(Sum(dst, Reg(dst), Reg(inx.value), w))] else []
  }

  /** The pointer at zero-page TA, into TR[0] and TR[1]. */
  const POINTER_CASES: seq<Cycle> :=
    [C([ASK_TA], READ), C([Take(RTR(0)), NEXT_TA, ASK_TA], READ), C([Take(RTR(1))], IDLE)]

  /** The cases up to the one that asks for the operand byte; `pre` is the open case so far. */
  function AddrCases(m: Mode, pre: seq<Op>): seq<Cycle> {
    match m
    case Imm => [C(pre + [ADDR_PC, INC_PC], READ)]
    case Zp(inx) =>
      [C(pre + [ADDR_PC], READ), C([Take(RTA), INC_PC], IDLE), C(IndexOps(RTA, inx, W8) + [ASK_TA], READ)]
    case Abso(inx) =>
      [C(pre + [ADDR_PC], READ), C([Take(RTA), INC_PC, ADDR_PC], READ), C([Take(RTR(0)), INC_PC, JOIN_TA], IDLE),
       C(IndexOps(RTA, inx, W16) + [ASK_MEM], READ)]
    case Ind(inx) =>
      [C(pre + [ADDR_PC], READ), C([Take(RTA), INC_PC] + IndexOps(RTA, inx, W8), IDLE)] + POINTER_CASES
      + [C([JOIN_PTR, ASK_MEM], READ)]
    case IndY =>
      [C(pre + [ADDR_PC], READ), C([Take(RTA), INC_PC], IDLE)] + POINTER_CASES
      + [C([JOIN_PTR, ADD_Y, ASK_MEM], READ)]
  }

  /** Where the operand of a read form is when the arithmetic uses it. */
  function ReadSrc(m: Mode): Src {
    if m.Ind? then Reg(RTR(0)) else Data
  }

  /** A read form outside T mode. */
  function ReadCode(m: Mode, f: AluOp, dt: Reg): seq<Cycle> {
    var ops := (if m.Ind? then [Take(RTR(0))] else []) + [Just(Alu(f, dt, ReadSrc(m)))];
    AddrCases(m, [])
    + if Splits(f) then [C(ops + [BrEnd(NotDecimal), ADDR_PC], READ), Ending([], true, true)]
      else [Ending(ops, true, true)]
  }

  /** Where the second operand of a T-mode form is. */
  function MemSrc(m: Mode): Reg {
    match m
    case Imm => RTA
    case IndY => RTR(3)
    case _ => RTR(0)
  }

  /** The cases of a T-mode form that fetch both operands; A is kept in TR[2]. */
  function MemLoads(m: Mode): seq<Cycle> {
    if m.Imm? then [C([SAVE_A, ADDR_PC], READ), C([Take(RTA), INC_PC, ASK_X], READ)]
    else AddrCases(m, [SAVE_A]) + [C([Take(if m.Zp? then RA else MemSrc(m)), ASK_X], READ)]
  }

  /** The same form in T mode: the result goes to zero-page X and A comes back. */
  function MemCode(m: Mode, f: AluOp): seq<Cycle> {
    var ops := [Take(if m.Zp? then RTR(0) else RA), Just(Alu(f, RA, Reg(MemSrc(m))))];
    var store := C([ASK_X, Just(Out(Reg(RA))), RESTORE_A], WRITE);
    MemLoads(m)
    + (if f.ADC? then [Cycle(ops, Skip(NotDecimal), IDLE, []), C([], IDLE)] else [C(ops, IDLE)])
    + [store, Ending([], true, true)]
  }

  function CallCode(): seq<Cycle> {
    [C([ADDR_PC], READ),
     C([Take(RTA), INC_PC], IDLE),
     C(PushOps(Hi(RPC)), WRITE),
     C(PushOps(Lo(RPC)), WRITE),
     C([ADDR_PC], READ),
     C([Take(RTR(0)), INC_PC, JOIN_TA, Just(Move(RPC, Reg(RTA)))], IDLE),
     Ending([], true, true)]
  }

  function ReturnCode(): seq<Cycle> {
    [C([ADDR_PC], READ),
     C([], IDLE),
     C(PULL_OPS, READ),
     C([Take(RPC)] + PULL_OPS, READ),
     C([Take(RTA), JOIN_PC], IDLE),
     C([INC_PC], IDLE),
     Ending([], true, true)]
  }

  function InterruptCode(vector: int): seq<Cycle> {
    [C([ADDR_PC], READ),
     C([ADDR_PC], READ),
     C([Just(Sum(RPC, Reg(RPC), Num(-1), W16))] + PushOps(Hi(RPC)), WRITE),
     C(PushOps(Lo(RPC)), WRITE),
     C(PushOps(Status(false, true)), WRITE),
     C([Just(PutFlag(FI, true)), Just(PutFlag(FD, false)), Just(PutFlag(FT, false)), Just(Move(RTA, Num(vector))),
       ASK_MEM], READ),
     C([Take(RPC), Just(Sum(RTA, Reg(RTA), Num(1), W16)), ASK_MEM], READ),
     Ending([Just(Join(RPC, Reg(RPC), Data))], true, true)]
  }

  function ReturnFromInterruptCode(): seq<Cycle> {
    [C([ADDR_PC], READ),
     C([], IDLE),
     C(PULL_OPS, READ),
     C([Just(LoadStatus), Just(DropBrk)] + PULL_OPS, READ),
     C([Take(RPC)] + PULL_OPS, READ),
     C([Take(RTA), JOIN_PC], IDLE),
     Ending([], true, false)]
  }

  function BranchSubroutineCode(): seq<Cycle> {
    [C([ADDR_PC], READ),
     C([Take(RTA), INC_PC, Just(Move(RTA, Signed(RTA)))], IDLE),
     C([Just(Sum(RTR(0), Reg(RPC), Num(-1), W16))] + PushOps(Hi(RTR(0))), WRITE),
     C([Just(Sum(RPC, Reg(RPC), Reg(RTA), W32))] + PushOps(Lo(RTR(0))), WRITE),
     C([], IDLE),
     C([], IDLE),
     C([], IDLE),
     Ending([], true, true)]
  }

  datatype MoveKind = TII | TDD | TIN | TIA | TAI

  /** The al_T* functions: how source and target move after a byte. */
  function MoveOps(k: MoveKind): seq<Op> {
    var srcUp, srcDown := Just(Sum(RTR(0), Reg(RTR(0)), Num(1), W16)), Just(Sum(RTR(0), Reg(RTR(0)), Num(-1), W16));
    var dstUp, dstDown := Just(Sum(RTR(1), Reg(RTR(1)), Num(1), W16)), Just(Sum(RTR(1), Reg(RTR(1)), Num(-1), W16));
    match k
    case TII => [srcUp, dstUp]
    case TDD => [srcDown, dstDown]
    case TIN => [srcUp]
    case TIA => [srcUp, Just(Zigzag(RTR(1)))]
    case TAI => [Just(Zigzag(RTR(0))), dstUp]
  }

  function JoinTR(i: Slot, j: Slot): Op {
    Just(Join(RTR(i), Reg(RTR(i)), Reg(RTR(j))))
  }

  /** Cases 1 to 13: three pushes, six operand bytes, BM on. */
  function BlockSetup(): seq<Cycle> {
    [C([ADDR_PC], READ),
     C([], IDLE),
     C(PushOps(Reg(RY)), WRITE),
     C(PushOps(Reg(RA)), WRITE),
     C(PushOps(Reg(RX)), WRITE),
     C([ADDR_PC], READ),
     C([Take(RTR(0)), INC_PC, ADDR_PC], READ),
     C([Take(RTR(6)), INC_PC, JoinTR(0, 6), ADDR_PC], READ),
     C([Take(RTR(1)), INC_PC, ADDR_PC], READ),
     C([Take(RTR(5)), INC_PC, JoinTR(1, 5), ADDR_PC], READ),
     C([Take(RTR(2)), INC_PC, ADDR_PC], READ),
     C([Take(RTR(5)), INC_PC, JoinTR(2, 5)], IDLE),
     C([Just(BlockMode(true)), Just(Move(RTR(3), Num(0)))], IDLE)]
  }

  /** Cases 14 to 19: one byte from TR[0] to TR[1], and back while TR[2] counts down. */
  function BlockBody(k: MoveKind): seq<Cycle> {
    [C([Just(AddrMapped(Reg(RTR(0))))], READ),
     C([Take(RTR(4))], IDLE),
     C([Just(AddrMapped(Reg(RTR(1)))), Just(Out(Reg(RTR(4))))], WRITE),
     C(MoveOps(k) + [Just(Toggle(RTR(3)))], IDLE),
     C([], IDLE),
     Cycle([Just(Sum(RTR(2), Reg(RTR(2)), Num(-1), W16))], Loop, IDLE, [])]
  }

  /** Cases 20 to 23. */
  function BlockFinish(): seq<Cycle> {
    [C(PULL_OPS, READ),
     C([Take(RX), Just(BlockMode(false))] + PULL_OPS, READ),
     C([Take(RA)] + PULL_OPS, READ),
     Ending([Take(RY)], true, true)]
  }

  function BlockCode(k: MoveKind): seq<Cycle> {
    BlockSetup() + BlockBody(k) + BlockFinish()
  }

  // ----- The other instructions -----

  /** SBC as generated for the T = 1 half of the table: no dummy read before the decimal cycle. */
  function QuietCode(m: Mode, dt: Reg): seq<Cycle> {
    var ops := (if m.Ind? then [Take(RTR(0))] else []) + [Just(Alu(SBC, dt, ReadSrc(m)))];
    AddrCases(m, []) + [C(ops + [BrEnd(NotDecimal)], IDLE), Ending([], true, true)]
  }

  function WriteCode(m: Mode, v: Src): seq<Cycle> {
    match m
    case Zp(inx) =>
      [C([ADDR_PC], READ), C([Take(RTA), INC_PC] + IndexOps(RTA, inx, W8), IDLE), C([ASK_TA, Just(Out(v))], WRITE),
       Ending([], true, true)]
    case Abso(inx) =>
      [C([ADDR_PC], READ), C([Take(RTA), INC_PC, ADDR_PC], READ), C([Take(RTR(0)), INC_PC, JOIN_TA], IDLE),
       C(IndexOps(RTA, inx, W16) + [ASK_MEM, Just(Out(v))], WRITE), Ending([], true, true)]
    case Ind(inx) =>
      [C([ADDR_PC], READ), C([Take(RTA), INC_PC], IDLE), C(IndexOps(RTA, inx, W8) + [ASK_TA], READ),
       C([Take(RTR(0)), NEXT_TA, ASK_TA], READ), C([Take(RTR(1)), JOIN_PTR], IDLE), C([ASK_MEM, Just(Out(v))], WRITE),
       Ending([], true, true)]
    case _ =>
      [C([ADDR_PC], READ), C([Take(RTA), INC_PC], IDLE), C([ASK_TA], READ), C([Take(RTR(0)), NEXT_TA, ASK_TA], READ),
       C([Take(RTR(1)), JoinTR(0, 1)], IDLE),
       C([Just(Sum(RTA, Reg(RTR(0)), Reg(RY), W16)), ASK_MEM, Just(Out(v))], WRITE), Ending([], true, true)]
  }

  function AskOp(m: Mode): Op {
    if m.Zp? then ASK_TA else ASK_MEM
  }

  function ModifyCode(m: Mode, f: AluOp): seq<Cycle> {
    AddrCases(m, [])
    + [C([Take(RTR(0))], IDLE), C([Just(Alu(f, RTR(1), Reg(RTR(0)))), AskOp(m), Just(Out(Reg(RTR(1))))], WRITE),
       Ending([], true, true)]
  }

  /** RMB and SMB. */
  function BitCode(k: Slot, on: bool): seq<Cycle> {
    AddrCases(Zp(None), [])
    + [C([Take(RTR(0))], IDLE), C([], IDLE),
       C([Just(if on then SetBit(RTR(0), k) else ResetBit(RTR(0), k)), ASK_TA, Just(Out(Reg(RTR(0))))], WRITE),
       Ending([], true, true)]
  }

  function TestCode(m: Mode): seq<Cycle> {
    if m.Zp? then
      [C([ADDR_PC], READ), C([Take(RTR(0)), INC_PC, ADDR_PC], READ), C([Take(RTR(1)), INC_PC], IDLE), C([], IDLE),
       C(IndexOps(RTR(1), m.inx, W8) + [Just(AddrPage1(Reg(RTR(1))))], READ),
       C([Take(RTA), Just(TestMask(Reg(RTR(0)), Reg(RTA)))], IDLE), Ending([], true, true)]
    else
      [C([ADDR_PC], READ), C([Take(RTR(0)), INC_PC, ADDR_PC], READ), C([Take(RTA), INC_PC, ADDR_PC], READ),
       C([Take(RTR(1)), INC_PC, Just(Join(RTA, Reg(RTA), Reg(RTR(1))))], IDLE), C([], IDLE),
       C(IndexOps(RTA, if m.Abso? then m.inx else None, W16) + [ASK_MEM], READ), C([Take(RTR(2))], IDLE),
       Ending([Just(TestMask(Reg(RTR(0)), Reg(RTR(2))))], true, true)]
  }

  /** A dummy read, then everything in the last case. */
  function ShortCode(ops: seq<Op>, poll: bool, clearT: bool): seq<Cycle> {
    [C([ADDR_PC], READ), Ending(ops, poll, clearT)]
  }

  function PullCode(ops: seq<Op>, usual: bool): seq<Cycle> {
    [C([ADDR_PC], READ), C([], IDLE), C(PULL_OPS, READ), Ending(ops, usual, usual)]
  }

  const TAKE_BRANCH: Op := Just(Sum(RTA, Reg(RPC), SignedData, W16))

  /** Taken when the named flag has the named value; `None` is BRA. */
  function BranchCode(taken: Option<(FlagName, bool)>): seq<Cycle> {
    [C([ADDR_PC], READ),
     if taken.Some? then C([Take(RTA), INC_PC, BrEnd(FlagIs(taken.value.0, !taken.value.1)), TAKE_BRANCH, ADDR_PC],
       READ)
     else C([Take(RTA), INC_PC, TAKE_BRANCH], IDLE),
     C([], IDLE), Ending([Just(Move(RPC, Reg(RTA)))], true, true)]
  }

  function BitBranchCode(k: Slot, on: bool): seq<Cycle> {
    [C([ADDR_PC], READ), C([Take(RTA), INC_PC], IDLE), C([ADDR_PC], READ), C([Take(RTR(2)), INC_PC], IDLE),
     C([ASK_TA], READ), C([BrEnd(DataBit(k, !on)), Just(Sum(RPC, Reg(RPC), Signed(RTR(2)), W16))], IDLE), C([], IDLE),
     Ending([], true, true)]
  }

  function JumpIndirectCode(inx: Option<Reg>): seq<Cycle> {
    [C([ADDR_PC], READ), C([Take(RTA), INC_PC, ADDR_PC], READ), C([Take(RTR(0)), INC_PC, JOIN_TA], IDLE),
     C(IndexOps(RTA, inx, W16) + [ASK_MEM], READ), C([Take(RPC), Just(Sum(RTA, Reg(RTA), Num(1), W16)), ASK_MEM], READ),
     C([Take(RTR(0)), Just(Join(RPC, Reg(RPC), Reg(RTR(0))))], IDLE), Ending([], true, true)]
  }

  function BreakCode(): seq<Cycle> {
    [C([ADDR_PC], READ),
     C([INC_PC] + PushOps(Hi(RPC)), WRITE),
     C(PushOps(Lo(RPC)), WRITE),
     C([Just(PutFlag(FT, false))] + PushOps(Status(true, true)), WRITE),
     C([Just(PutFlag(FD, false)), Just(PutFlag(FI, true)), Just(AddrMapped(Num(0xFFF6)))], READ),
     C([Take(RPC), Just(AddrMapped(Num(0xFFF7)))], READ),
     C([Take(RTA), JOIN_PC], IDLE),
     Ending([], true, true)]
  }

  const STACK_DOWN: Cycle := C([Just(AddrResetStack), DEC_S], IDLE)

  function ResetCode(): seq<Cycle> {
    [C([], IDLE), STACK_DOWN, STACK_DOWN, STACK_DOWN, STACK_DOWN,
     C([Just(PutFlag(FI, true)), Just(PutFlag(FD, false)), Just(PutFlag(FT, false)), Just(ResetMachine),
        Just(AddrFixed(0x1FFE)), Just(Move(RS, Num(0)))], READ),
     C([Take(RPC), Just(AddrNext)], READ),
     C([], IDLE),
     Ending([Just(Join(RPC, Reg(RPC), Data))], true, true)]
  }

  datatype Instr =
    | IRead(m: Mode, f: AluOp, dt: Reg, quiet: bool)
    | IMem(m: Mode, f: AluOp)
    | IWrite(m: Mode, v: Src)
    | IModify(m: Mode, f: AluOp)
    | IBit(k: Slot, on: bool)
    | ITest(m: Mode)
    | IAlu(f: AluOp, dt: Reg)
    | IClear(t: Target)
    | ISet(flag: FlagName)
    | ITransfer(src: Reg, dst: Reg)
    | IStackPointer
    | ISwap(d1: Reg, d2: Reg)
    | INop
    | ISpeed(div: nat)
    | IStore(addr: nat)
    | IPush(v: Src)
    | IPull(dt: Reg)
    | IPullP
    | IBranch(taken: Option<(FlagName, bool)>)
    | IBranchBit(k: Slot, on: bool)
    | IJump
    | IJumpIndirect(inx: Option<Reg>)
    | ICall
    | IReturn
    | IBranchSub
    | IBreak
    | IInterrupt(vector: int)
    | IReturnInt
    | IReset
    | IToBanks
    | IFromBanks
    | IMove(move: MoveKind)

  function Text(i: Instr): seq<Cycle> {
    match i
    case IRead(m, f, dt, quiet) => if f.SBC? && quiet then QuietCode(m, dt) else ReadCode(m, f, dt)
    case IMem(m, f) => MemCode(m, f)
    case IWrite(m, v) => WriteCode(m, v)
    case IModify(m, f) => ModifyCode(m, f)
    case IBit(k, on) => BitCode(k, on)
    case ITest(m) => TestCode(m)
    case IAlu(f, dt) => ShortCode([Just(Alu(f, dt, Reg(dt)))], true, true)
    case IClear(t) => ShortCode([Just(if t.Register? then Move(t.g, Num(0)) else PutFlag(t.f, false))],
      t != Flag(FI), true)
    case ISet(f) =>
      [C([ADDR_PC] + if f == FI then [Just(PollIrqs)] else [], READ),
        Ending([Just(PutFlag(f, true))], f != FI, f != FT)]
    case ITransfer(src, dst) => ShortCode([Just(Move(dst, Reg(src))), Just(SetNZ(dst))], true, true)
    case IStackPointer => ShortCode([Just(Move(RS, Reg(RX)))], true, true)
    case ISwap(d1, d2) =>
      [C([ADDR_PC], READ), C([], IDLE),
       Ending([Just(Move(RTA, Reg(d1))), Just(Move(d1, Reg(d2))), Just(Move(d2, Reg(RTA)))], true, true)]
    case INop => ShortCode([], true, true)
    case ISpeed(div) => [C([ADDR_PC], READ), C([Just(Speed(div))], IDLE), Ending([], true, true)]
    case IStore(addr) =>
      [C([ADDR_PC], READ), C([Take(RTR(0)), INC_PC], IDLE), C([Just(AddrFixed(addr)), Just(Out(Reg(RTR(0))))], WRITE),
       Ending([], true, true)]
    case IPush(v) => [C([ADDR_PC], READ), C(PushOps(v), WRITE), Ending([], true, true)]
    case IPull(dt) => PullCode([Take(dt), Just(SetNZ(dt))], true)
    case IPullP => PullCode([Just(LoadStatus), Just(DropBrk)], false)
    case IBranch(taken) => BranchCode(taken)
    case IBranchBit(k, on) => BitBranchCode(k, on)
    case IJump =>
      [C([ADDR_PC], READ), C([Take(RTA), INC_PC, ADDR_PC], READ), C([Take(RTR(0)), INC_PC, JOIN_TA], IDLE),
       Ending([Just(Move(RPC, Reg(RTA)))], true, true)]
    case IJumpIndirect(inx) => JumpIndirectCode(inx)
    case ICall => CallCode()
    case IReturn => ReturnCode()
    case IBranchSub => BranchSubroutineCode()
    case IBreak => BreakCode()
    case IInterrupt(vector) => InterruptCode(vector)
    case IReturnInt => ReturnFromInterruptCode()
    case IReset => ResetCode()
    case IToBanks =>
      [C([ADDR_PC], READ), C([Take(RTA), INC_PC], IDLE), C([], IDLE), C([Just(StoreBanks)], IDLE),
        Ending([], true, true)]
    case IFromBanks => [C([ADDR_PC], READ), C([Take(RTR(0)), INC_PC], IDLE), C([], IDLE),
      Ending([Just(LoadBanks)], true, true)]
    case IMove(k) => BlockCode(k)
  }
}
