/** write_instruction: which form, with which parameters, makes each table entry. */
module HucTable {
  import opened Common
  import opened HucMachine
  import opened HucMicrocode
  import opened HucSwitchgen
  import opened HucText
  import opened HucForms

  const ENTRIES := 0x104

  /** The operand form in the low five bits of an arithmetic opcode. */
  function ModeOf(low: int): Option<Mode> {
    match low
    case 0x01 => Some(Ind(Some(RX)))
    case 0x05 => Some(Zp(None))
    case 0x09 => Some(Imm)
    case 0x0D => Some(Abso(None))
    case 0x11 => Some(IndY)
    case 0x12 => Some(Ind(None))
    case 0x15 => Some(Zp(Some(RX)))
    case 0x19 => Some(Abso(Some(RY)))
    case 0x1D => Some(Abso(Some(RX)))
    case _ => None
  }

  /** The operation in the upper three bits of an arithmetic opcode; 4 is a store. */
  function Operation(high: int): AluOp {
    match high
    case 0 => ORA
    case 1 => AND
    case 2 => EOR
    case 3 => ADC
    case 5 => LD
    case 6 => CMP
    case _ => SBC
  }

  function TAlu(opcode: int): AluOp {
    Operation(opcode / 0x20)
  }

  /** The four operations T mode redirects. */
  predicate HasTForm(opcode: int) {
    0 <= opcode < 0x80 && ModeOf(opcode % 0x20).Some?
  }

  /** Read-modify-write operations, by the upper three bits; 4 and 5 are STX and LDX. */
  function Shift(high: int): AluOp {
    match high
    case 0 => ASL
    case 1 => ROL
    case 2 => LSR
    case 3 => ROR
    case 6 => DEC
    case _ => INC
  }

  function ShiftOn(high: int, m: Mode, quiet: bool): Instr {
    match high
    case 4 => IWrite(m, Reg(RX))
    case 5 => IRead(m, LD, RX, quiet)
    case _ => IModify(m, Shift(high))
  }

  /** Y in place of X for STX and LDX. */
  function Indexed(high: int): Option<Reg> {
    Some(if high == 4 || high == 5 then RY else RX)
  }

  function BranchFlag(k: int): FlagName {
    match k
    case 0 => FN
    case 1 => FV
    case 2 => FC
    case _ => FZ
  }

  /** Columns 00, 04, 08, 0C, 10, 14, 18, 1C. */
  function Control(high: int, column: int, quiet: bool): Instr {
    match (high, column)
    case (0, 0) => IBreak case (1, 0) => ICall case (2, 0) => IReturnInt case (3, 0) => IReturn
    case (4, 0) => IBranch(None)
    case (0, 1) => IModify(Zp(None), TSB) case (0, 3) => IModify(Abso(None), TSB)
    case (0, 5) => IModify(Zp(None), TRB) case (0, 7) => IModify(Abso(None), TRB)
    case (2, 1) => IBranchSub case (2, 3) => IJump case (3, 3) => IJumpIndirect(None) case (3,
      7) => IJumpIndirect(Some(RX))
    case (3, 1) => IWrite(Zp(None), Num(0)) case (3, 5) => IWrite(Zp(Some(RX)), Num(0)) case (4,
      7) => IWrite(Abso(None), Num(0))
    case (0, 2) => IPush(Status(true, false)) case (1, 2) => IPullP case (2, 2) => IPush(Reg(RA)) case (3,
      2) => IPull(RA)
    case (4, 2) => IAlu(DEC, RY) case (5, 2) => ITransfer(RA, RY) case (6, 2) => IAlu(INC, RY) case (7,
      2) => IAlu(INC, RX)
    case (2, 5) => ISpeed(12) case (6, 5) => ISpeed(3) case (7, 5) => ISet(FT)
    case (0, 6) => IClear(Flag(FC)) case (1, 6) => ISet(FC) case (2, 6) => IClear(Flag(FI)) case (3, 6) => ISet(FI)
    case (4, 6) => ITransfer(RY, RA) case (5, 6) => IClear(Flag(FV)) case (6, 6) => IClear(Flag(FD)) case (7,
      6) => ISet(FD)
    case _ =>
      if column == 4 then IBranch(Some((BranchFlag(high / 2), high % 2 == 1)))
      else if column == 7 && high != 1 && high != 5 then INop
      else
        var m := if column == 0 then Imm else if column == 1 then Zp(None) else if column == 3 then Abso(None)
                 else if column == 5 then Zp(Some(RX)) else Abso(Some(RX));
        match high
        case 1 => IRead(m, BIT, RA, quiet)
        case 4 => IWrite(m, Reg(RY))
        case 5 => IRead(m, LD, RY, quiet)
        case 6 => IRead(m, CPY, RY, quiet)
        case _ => IRead(m, CPX, RX, quiet)
  }

  /** Columns 02, 06, 0A, 0E, 16, 1A, 1E. */
  function Registers(high: int, column: int, quiet: bool): Instr {
    match (high, column)
    case (0, 0) => ISwap(RX, RY) case (1, 0) => ISwap(RA, RX) case (2, 0) => ISwap(RA, RY)
    case (3, 0) => IClear(Register(RA)) case (4, 0) => IClear(Register(RX)) case (5, 0) => IRead(Imm, LD, RX, quiet)
    case (6, 0) => IClear(Register(RY)) case (7, 0) => INop
    case (4, 2) => ITransfer(RX, RA) case (5, 2) => ITransfer(RA, RX) case (6, 2) => IAlu(DEC, RX) case (7, 2) => INop
    case (0, 6) => IAlu(INC, RA) case (1, 6) => IAlu(DEC, RA) case (2, 6) => IPush(Reg(RY)) case (3, 6) => IPull(RY)
    case (4, 6) => IStackPointer case (5, 6) => ITransfer(RS, RX) case (6, 6) => IPush(Reg(RX)) case (7, 6) => IPull(RX)
    case (4, 7) => IWrite(Abso(Some(RX)), Num(0))
    case _ =>
      if column == 1 then ShiftOn(high, Zp(None), quiet)
      else if column == 2 then IAlu(Shift(high), RA)
      else if column == 3 then ShiftOn(high, Abso(None), quiet)
      else if column == 5 then ShiftOn(high, Zp(Indexed(high)), quiet)
      else ShiftOn(high, Abso(Indexed(high)), quiet)
  }

  /** Column 3 of a row. */
  function Special(row: int): Instr {
    match row
    case 0x0 => IStore(0x1FE000) case 0x1 => IStore(0x1FE002) case 0x2 => IStore(0x1FE003)
    case 0x4 => IFromBanks case 0x5 => IToBanks
    case 0x7 => IMove(TII) case 0xC => IMove(TDD) case 0xD => IMove(TIN) case 0xE => IMove(TIA) case 0xF => IMove(TAI)
    case 0x8 => ITest(Zp(None)) case 0x9 => ITest(Abso(None))
    case 0xA => ITest(Zp(Some(RX))) case 0xB => ITest(Abso(Some(RX)))
    case _ => INop
  }

  /** The opcode matrix: three bits of operation, three of operand form, two of group. */
  function InstrOf(opcode: int, tbit: bool): Instr {
    var high, low, row := opcode / 0x20, opcode % 0x20, opcode / 0x10;
    var quiet := tbit && opcode > 0xE0;
    if opcode == 0x100 then IReset
    else if opcode > 0x100 then IInterrupt(Vector(opcode))
    else if opcode == 0x89 then IRead(Imm, BIT, RA, quiet)
    else if ModeOf(low).Some? then
      var m := ModeOf(low).value;
      if high == 4 then IWrite(m, Reg(RA))
      else if tbit && high < 4 then IMem(m, Operation(high))
      else IRead(m, Operation(high), RA, quiet)
    else if low % 16 == 0x3 then Special(row)
    else if low % 16 == 0x7 then IBit(row % 8, row >= 8)
    else if low % 16 == 0xB then INop
    else if low % 16 == 0xF then IBranchBit(row % 8, row >= 8)
    else if low % 4 == 0 then Control(high, low / 4, quiet)
    else Registers(high, low / 4, quiet)
  }

  function Vector(opcode: int): int {
    match opcode
    case 0x101 => 0xFFF6
    case 0x102 => 0xFFF8
    case _ => 0xFFFA
  }

  /** CLI, SEI and PLP do not poll for interrupts at their end. */
  predicate Polls(opcode: int) {
    opcode !in {0x58, 0x78, 0x28}
  }

  /** Only SET, PLP and RTI may leave T set. */
  predicate ClearsT(opcode: int) {
    opcode !in {0xF4, 0x28, 0x40}
  }

  /** BSR alone may carry PC beyond 16 bits. */
  predicate MayWrap(opcode: int) {
    opcode == 0x44
  }

  /** What is promised of the text generated for a table entry. */
  ghost predicate Entry(opcode: int, tbit: bool, r: seq<seq<Op>>) {
    && r == Compile(Text(InstrOf(opcode, tbit)))
    && (!InstrOf(opcode, tbit).IMove? && opcode != 0x100 ==>
      IsCertified(r, MayWrap(opcode), Polls(opcode), ClearsT(opcode)))
  }

  predicate IsMove(opcode: int) {
    InstrOf(opcode, false).IMove?
  }

  ghost function AimOf(opcode: int): Aim {
    Aim(!IsMove(opcode) && opcode != 0x100, MayWrap(opcode))
  }

  method Row0(ag: SwitchGen, lo: int, tbit: bool) returns (r: seq<seq<Op>>)
    requires 0 <= lo < 16 && ag.Fresh() && ag.aim == AimOf(0x0 + lo)
    requires ag.isMem == (tbit && 0x0 + lo > 0xE0)
    requires tbit ==> !HasTForm(0x0 + lo)
    modifies ag
    ensures Entry(0x0 + lo, tbit, r)
  {
    hide SwitchGen.Fresh, Compile, IsCertified, Text, Entry, InstrOf, AimOf, HasTForm;
    if lo < 8 {
      r := Row0Left(ag, lo, tbit);
    } else {
      r := Row0Right(ag, lo, tbit);
    }
  }

  method Row0Left(ag: SwitchGen, lo: int, tbit: bool) returns (r: seq<seq<Op>>)
    requires 0 <= lo < 8 && ag.Fresh() && ag.aim == AimOf(0x0 + lo)
    requires ag.isMem == (tbit && 0x0 + lo > 0xE0)
    requires tbit ==> !HasTForm(0x0 + lo)
    modifies ag
    ensures Entry(0x0 + lo, tbit, r)
  {
    hide SwitchGen.Fresh, Compile, IsCertified, Text;
    match lo {
      case 0x0 => r := Break(ag);
      case 0x1 => r := IndirectRead(ag, ORA, RA, Some(RX));
      case 0x2 => r := Swap(ag, RX, RY);
      case 0x3 => r := StoreImplied(ag, 0x1FE000);
      case 0x4 => r := ZeroPageModify(ag, TSB, None);
      case 0x5 => r := ZeroPageRead(ag, ORA, RA, None);
      case 0x6 => r := ZeroPageModify(ag, ASL, None);
      case _ => r := ResetMemoryBit(ag, 0);
    }
  }

  method Row0Right(ag: SwitchGen, lo: int, tbit: bool) returns (r: seq<seq<Op>>)
    requires 8 <= lo < 16 && ag.Fresh() && ag.aim == AimOf(0x0 + lo)
    requires ag.isMem == (tbit && 0x0 + lo > 0xE0)
    requires tbit ==> !HasTForm(0x0 + lo)
    modifies ag
    ensures Entry(0x0 + lo, tbit, r)
  {
    hide SwitchGen.Fresh, Compile, IsCertified, Text;
    match lo {
      case 0x8 => r := Push(ag, Status(true, false));
      case 0x9 => r := Immediate(ag, ORA, RA);
      case 0xA => r := Implied(ag, ASL, RA);
      case 0xB => r := Nop(ag);
      case 0xC => r := AbsoluteModify(ag, TSB, None);
      case 0xD => r := AbsoluteRead(ag, ORA, RA, None);
      case 0xE => r := AbsoluteModify(ag, ASL, None);
      case _ => r := BranchIfBit(ag, 0, false);
    }
  }

  method Row1(ag: SwitchGen, lo: int, tbit: bool) returns (r: seq<seq<Op>>)
    requires 0 <= lo < 16 && ag.Fresh() && ag.aim == AimOf(0x10 + lo)
    requires ag.isMem == (tbit && 0x10 + lo > 0xE0)
    requires tbit ==> !HasTForm(0x10 + lo)
    modifies ag
    ensures Entry(0x10 + lo, tbit, r)
  {
    hide SwitchGen.Fresh, Compile, IsCertified, Text;
    match lo {
      case 0x0 => r := Branch(ag, Some((FN, false)));
      case 0x1 => r := IndirectYRead(ag, ORA, RA);
      case 0x2 => r := IndirectRead(ag, ORA, RA, None);
      case 0x3 => r := StoreImplied(ag, 0x1FE002);
      case 0x4 => r := ZeroPageModify(ag, TRB, None);
      case 0x5 => r := ZeroPageRead(ag, ORA, RA, Some(RX));
      case 0x6 => r := ZeroPageModify(ag, ASL, Some(RX));
      case 0x7 => r := ResetMemoryBit(ag, 1);
      case 0x8 => r := Clear(ag, Flag(FC));
      case 0x9 => r := AbsoluteRead(ag, ORA, RA, Some(RY));
      case 0xA => r := Implied(ag, INC, RA);
      case 0xB => r := Nop(ag);
      case 0xC => r := AbsoluteModify(ag, TRB, None);
      case 0xD => r := AbsoluteRead(ag, ORA, RA, Some(RX));
      case 0xE => r := AbsoluteModify(ag, ASL, Some(RX));
      case _ => r := BranchIfBit(ag, 1, false);
    }
  }

  method Row2(ag: SwitchGen, lo: int, tbit: bool) returns (r: seq<seq<Op>>)
    requires 0 <= lo < 16 && ag.Fresh() && ag.aim == AimOf(0x20 + lo)
    requires ag.isMem == (tbit && 0x20 + lo > 0xE0)
    requires tbit ==> !HasTForm(0x20 + lo)
    modifies ag
    ensures Entry(0x20 + lo, tbit, r)
  {
    hide SwitchGen.Fresh, Compile, IsCertified, Text;
    match lo {
      case 0x0 => r := CallAbsolute(ag);
      case 0x1 => r := IndirectRead(ag, AND, RA, Some(RX));
      case 0x2 => r := Swap(ag, RA, RX);
      case 0x3 => r := StoreImplied(ag, 0x1FE003);
      case 0x4 => r := ZeroPageRead(ag, BIT, RA, None);
      case 0x5 => r := ZeroPageRead(ag, AND, RA, None);
      case 0x6 => r := ZeroPageModify(ag, ROL, None);
      case 0x7 => r := ResetMemoryBit(ag, 2);
      case 0x8 => r := PullP(ag);
      case 0x9 => r := Immediate(ag, AND, RA);
      case 0xA => r := Implied(ag, ROL, RA);
      case 0xB => r := Nop(ag);
      case 0xC => r := AbsoluteRead(ag, BIT, RA, None);
      case 0xD => r := AbsoluteRead(ag, AND, RA, None);
      case 0xE => r := AbsoluteModify(ag, ROL, None);
      case _ => r := BranchIfBit(ag, 2, false);
    }
  }

  method Row3(ag: SwitchGen, lo: int, tbit: bool) returns (r: seq<seq<Op>>)
    requires 0 <= lo < 16 && ag.Fresh() && ag.aim == AimOf(0x30 + lo)
    requires ag.isMem == (tbit && 0x30 + lo > 0xE0)
    requires tbit ==> !HasTForm(0x30 + lo)
    modifies ag
    ensures Entry(0x30 + lo, tbit, r)
  {
    hide SwitchGen.Fresh, Compile, IsCertified, Text;
    match lo {
      case 0x0 => r := Branch(ag, Some((FN, true)));
      case 0x1 => r := IndirectYRead(ag, AND, RA);
      case 0x2 => r := IndirectRead(ag, AND, RA, None);
      case 0x3 => r := Nop(ag);
      case 0x4 => r := ZeroPageRead(ag, BIT, RA, Some(RX));
      case 0x5 => r := ZeroPageRead(ag, AND, RA, Some(RX));
      case 0x6 => r := ZeroPageModify(ag, ROL, Some(RX));
      case 0x7 => r := ResetMemoryBit(ag, 3);
      case 0x8 => r := SetTo1(ag, FC);
      case 0x9 => r := AbsoluteRead(ag, AND, RA, Some(RY));
      case 0xA => r := Implied(ag, DEC, RA);
      case 0xB => r := Nop(ag);
      case 0xC => r := AbsoluteRead(ag, BIT, RA, Some(RX));
      case 0xD => r := AbsoluteRead(ag, AND, RA, Some(RX));
      case 0xE => r := AbsoluteModify(ag, ROL, Some(RX));
      case _ => r := BranchIfBit(ag, 3, false);
    }
  }

  method Row4(ag: SwitchGen, lo: int, tbit: bool) returns (r: seq<seq<Op>>)
    requires 0 <= lo < 16 && ag.Fresh() && ag.aim == AimOf(0x40 + lo)
    requires ag.isMem == (tbit && 0x40 + lo > 0xE0)
    requires tbit ==> !HasTForm(0x40 + lo)
    modifies ag
    ensures Entry(0x40 + lo, tbit, r)
  {
    hide SwitchGen.Fresh, Compile, IsCertified, Text;
    match lo {
      case 0x0 => r := ReturnFromInterrupt(ag);
      case 0x1 => r := IndirectRead(ag, EOR, RA, Some(RX));
      case 0x2 => r := Swap(ag, RA, RY);
      case 0x3 => r := TransferMPRToAccumulator(ag);
      case 0x4 => r := BranchSubroutine(ag);
      case 0x5 => r := ZeroPageRead(ag, EOR, RA, None);
      case 0x6 => r := ZeroPageModify(ag, LSR, None);
      case 0x7 => r := ResetMemoryBit(ag, 4);
      case 0x8 => r := Push(ag, Reg(RA));
      case 0x9 => r := Immediate(ag, EOR, RA);
      case 0xA => r := Implied(ag, LSR, RA);
      case 0xB => r := Nop(ag);
      case 0xC => r := JumpAbsolute(ag);
      case 0xD => r := AbsoluteRead(ag, EOR, RA, None);
      case 0xE => r := AbsoluteModify(ag, LSR, None);
      case _ => r := BranchIfBit(ag, 4, false);
    }
  }

  method Row5(ag: SwitchGen, lo: int, tbit: bool) returns (r: seq<seq<Op>>)
    requires 0 <= lo < 16 && ag.Fresh() && ag.aim == AimOf(0x50 + lo)
    requires ag.isMem == (tbit && 0x50 + lo > 0xE0)
    requires tbit ==> !HasTForm(0x50 + lo)
    modifies ag
    ensures Entry(0x50 + lo, tbit, r)
  {
    hide SwitchGen.Fresh, Compile, IsCertified, Text;
    match lo {
      case 0x0 => r := Branch(ag, Some((FV, false)));
      case 0x1 => r := IndirectYRead(ag, EOR, RA);
      case 0x2 => r := IndirectRead(ag, EOR, RA, None);
      case 0x3 => r := TransferAccumulatorToMPR(ag);
      case 0x4 => r := ChangeSpeed(ag, 12);
      case 0x5 => r := ZeroPageRead(ag, EOR, RA, Some(RX));
      case 0x6 => r := ZeroPageModify(ag, LSR, Some(RX));
      case 0x7 => r := ResetMemoryBit(ag, 5);
      case 0x8 => r := Clear(ag, Flag(FI));
      case 0x9 => r := AbsoluteRead(ag, EOR, RA, Some(RY));
      case 0xA => r := Push(ag, Reg(RY));
      case 0xB => r := Nop(ag);
      case 0xC => r := Nop(ag);
      case 0xD => r := AbsoluteRead(ag, EOR, RA, Some(RX));
      case 0xE => r := AbsoluteModify(ag, LSR, Some(RX));
      case _ => r := BranchIfBit(ag, 5, false);
    }
  }

  method Row6(ag: SwitchGen, lo: int, tbit: bool) returns (r: seq<seq<Op>>)
    requires 0 <= lo < 16 && ag.Fresh() && ag.aim == AimOf(0x60 + lo)
    requires ag.isMem == (tbit && 0x60 + lo > 0xE0)
    requires tbit ==> !HasTForm(0x60 + lo)
    modifies ag
    ensures Entry(0x60 + lo, tbit, r)
  {
    hide SwitchGen.Fresh, Compile, IsCertified, Text;
    match lo {
      case 0x0 => r := ReturnFromSubroutine(ag);
      case 0x1 => r := IndirectRead(ag, ADC, RA, Some(RX));
      case 0x2 => r := Clear(ag, Register(RA));
      case 0x3 => r := Nop(ag);
      case 0x4 => r := ZeroPageWrite(ag, Num(0), None);
      case 0x5 => r := ZeroPageRead(ag, ADC, RA, None);
      case 0x6 => r := ZeroPageModify(ag, ROR, None);
      case 0x7 => r := ResetMemoryBit(ag, 6);
      case 0x8 => r := Pull(ag, RA);
      case 0x9 => r := Immediate(ag, ADC, RA);
      case 0xA => r := Implied(ag, ROR, RA);
      case 0xB => r := Nop(ag);
      case 0xC => r := JumpIndirect(ag, None);
      case 0xD => r := AbsoluteRead(ag, ADC, RA, None);
      case 0xE => r := AbsoluteModify(ag, ROR, None);
      case _ => r := BranchIfBit(ag, 6, false);
    }
  }

  method Row7(ag: SwitchGen, lo: int, tbit: bool) returns (r: seq<seq<Op>>)
    requires 0 <= lo < 16 && ag.Fresh() && ag.aim == AimOf(0x70 + lo)
    requires ag.isMem == (tbit && 0x70 + lo > 0xE0)
    requires tbit ==> !HasTForm(0x70 + lo)
    modifies ag
    ensures Entry(0x70 + lo, tbit, r)
  {
    hide SwitchGen.Fresh, Compile, IsCertified, Text;
    match lo {
      case 0x0 => r := Branch(ag, Some((FV, true)));
      case 0x1 => r := IndirectYRead(ag, ADC, RA);
      case 0x2 => r := IndirectRead(ag, ADC, RA, None);
      case 0x3 => r := BlockMove(ag, TII);
      case 0x4 => r := ZeroPageWrite(ag, Num(0), Some(RX));
      case 0x5 => r := ZeroPageRead(ag, ADC, RA, Some(RX));
      case 0x6 => r := ZeroPageModify(ag, ROR, Some(RX));
      case 0x7 => r := ResetMemoryBit(ag, 7);
      case 0x8 => r := SetTo1(ag, FI);
      case 0x9 => r := AbsoluteRead(ag, ADC, RA, Some(RY));
      case 0xA => r := Pull(ag, RY);
      case 0xB => r := Nop(ag);
      case 0xC => r := JumpIndirect(ag, Some(RX));
      case 0xD => r := AbsoluteRead(ag, ADC, RA, Some(RX));
      case 0xE => r := AbsoluteModify(ag, ROR, Some(RX));
      case _ => r := BranchIfBit(ag, 7, false);
    }
  }

  method Row8(ag: SwitchGen, lo: int, tbit: bool) returns (r: seq<seq<Op>>)
    requires 0 <= lo < 16 && ag.Fresh() && ag.aim == AimOf(0x80 + lo)
    requires ag.isMem == (tbit && 0x80 + lo > 0xE0)
    requires tbit ==> !HasTForm(0x80 + lo)
    modifies ag
    ensures Entry(0x80 + lo, tbit, r)
  {
    hide SwitchGen.Fresh, Compile, IsCertified, Text;
    match lo {
      case 0x0 => r := Branch(ag, None);
      case 0x1 => r := IndirectWrite(ag, Reg(RA), Some(RX));
      case 0x2 => r := Clear(ag, Register(RX));
      case 0x3 => r := TestZeroPage(ag, None);
      case 0x4 => r := ZeroPageWrite(ag, Reg(RY), None);
      case 0x5 => r := ZeroPageWrite(ag, Reg(RA), None);
      case 0x6 => r := ZeroPageWrite(ag, Reg(RX), None);
      case 0x7 => r := SetMemoryBit(ag, 0);
      case 0x8 => r := Implied(ag, DEC, RY);
      case 0x9 => r := Immediate(ag, BIT, RA);
      case 0xA => r := Transfer(ag, RX, RA);
      case 0xB => r := Nop(ag);
      case 0xC => r := AbsoluteWrite(ag, Reg(RY), None);
      case 0xD => r := AbsoluteWrite(ag, Reg(RA), None);
      case 0xE => r := AbsoluteWrite(ag, Reg(RX), None);
      case _ => r := BranchIfBit(ag, 0, true);
    }
  }

  method Row9(ag: SwitchGen, lo: int, tbit: bool) returns (r: seq<seq<Op>>)
    requires 0 <= lo < 16 && ag.Fresh() && ag.aim == AimOf(0x90 + lo)
    requires ag.isMem == (tbit && 0x90 + lo > 0xE0)
    requires tbit ==> !HasTForm(0x90 + lo)
    modifies ag
    ensures Entry(0x90 + lo, tbit, r)
  {
    hide SwitchGen.Fresh, Compile, IsCertified, Text;
    match lo {
      case 0x0 => r := Branch(ag, Some((FC, false)));
      case 0x1 => r := IndirectYWrite(ag, Reg(RA));
      case 0x2 => r := IndirectWrite(ag, Reg(RA), None);
      case 0x3 => r := TestAbsolute(ag, None);
      case 0x4 => r := ZeroPageWrite(ag, Reg(RY), Some(RX));
      case 0x5 => r := ZeroPageWrite(ag, Reg(RA), Some(RX));
      case 0x6 => r := ZeroPageWrite(ag, Reg(RX), Some(RY));
      case 0x7 => r := SetMemoryBit(ag, 1);
      case 0x8 => r := Transfer(ag, RY, RA);
      case 0x9 => r := AbsoluteWrite(ag, Reg(RA), Some(RY));
      case 0xA => r := TransferXS(ag);
      case 0xB => r := Nop(ag);
      case 0xC => r := AbsoluteWrite(ag, Num(0), None);
      case 0xD => r := AbsoluteWrite(ag, Reg(RA), Some(RX));
      case 0xE => r := AbsoluteWrite(ag, Num(0), Some(RX));
      case _ => r := BranchIfBit(ag, 1, true);
    }
  }

  method RowA(ag: SwitchGen, lo: int, tbit: bool) returns (r: seq<seq<Op>>)
    requires 0 <= lo < 16 && ag.Fresh() && ag.aim == AimOf(0xA0 + lo)
    requires ag.isMem == (tbit && 0xA0 + lo > 0xE0)
    requires tbit ==> !HasTForm(0xA0 + lo)
    modifies ag
    ensures Entry(0xA0 + lo, tbit, r)
  {
    hide SwitchGen.Fresh, Compile, IsCertified, Text;
    match lo {
      case 0x0 => r := Immediate(ag, LD, RY);
      case 0x1 => r := IndirectRead(ag, LD, RA, Some(RX));
      case 0x2 => r := Immediate(ag, LD, RX);
      case 0x3 => r := TestZeroPage(ag, Some(RX));
      case 0x4 => r := ZeroPageRead(ag, LD, RY, None);
      case 0x5 => r := ZeroPageRead(ag, LD, RA, None);
      case 0x6 => r := ZeroPageRead(ag, LD, RX, None);
      case 0x7 => r := SetMemoryBit(ag, 2);
      case 0x8 => r := Transfer(ag, RA, RY);
      case 0x9 => r := Immediate(ag, LD, RA);
      case 0xA => r := Transfer(ag, RA, RX);
      case 0xB => r := Nop(ag);
      case 0xC => r := AbsoluteRead(ag, LD, RY, None);
      case 0xD => r := AbsoluteRead(ag, LD, RA, None);
      case 0xE => r := AbsoluteRead(ag, LD, RX, None);
      case _ => r := BranchIfBit(ag, 2, true);
    }
  }

  method RowB(ag: SwitchGen, lo: int, tbit: bool) returns (r: seq<seq<Op>>)
    requires 0 <= lo < 16 && ag.Fresh() && ag.aim == AimOf(0xB0 + lo)
    requires ag.isMem == (tbit && 0xB0 + lo > 0xE0)
    requires tbit ==> !HasTForm(0xB0 + lo)
    modifies ag
    ensures Entry(0xB0 + lo, tbit, r)
  {
    hide SwitchGen.Fresh, Compile, IsCertified, Text;
    match lo {
      case 0x0 => r := Branch(ag, Some((FC, true)));
      case 0x1 => r := IndirectYRead(ag, LD, RA);
      case 0x2 => r := IndirectRead(ag, LD, RA, None);
      case 0x3 => r := TestAbsolute(ag, Some(RX));
      case 0x4 => r := ZeroPageRead(ag, LD, RY, Some(RX));
      case 0x5 => r := ZeroPageRead(ag, LD, RA, Some(RX));
      case 0x6 => r := ZeroPageRead(ag, LD, RX, Some(RY));
      case 0x7 => r := SetMemoryBit(ag, 3);
      case 0x8 => r := Clear(ag, Flag(FV));
      case 0x9 => r := AbsoluteRead(ag, LD, RA, Some(RY));
      case 0xA => r := Transfer(ag, RS, RX);
      case 0xB => r := Nop(ag);
      case 0xC => r := AbsoluteRead(ag, LD, RY, Some(RX));
      case 0xD => r := AbsoluteRead(ag, LD, RA, Some(RX));
      case 0xE => r := AbsoluteRead(ag, LD, RX, Some(RY));
      case _ => r := BranchIfBit(ag, 3, true);
    }
  }

  method RowC(ag: SwitchGen, lo: int, tbit: bool) returns (r: seq<seq<Op>>)
    requires 0 <= lo < 16 && ag.Fresh() && ag.aim == AimOf(0xC0 + lo)
    requires ag.isMem == (tbit && 0xC0 + lo > 0xE0)
    requires tbit ==> !HasTForm(0xC0 + lo)
    modifies ag
    ensures Entry(0xC0 + lo, tbit, r)
  {
    hide SwitchGen.Fresh, Compile, IsCertified, Text;
    match lo {
      case 0x0 => r := Immediate(ag, CPY, RY);
      case 0x1 => r := IndirectRead(ag, CMP, RA, Some(RX));
      case 0x2 => r := Clear(ag, Register(RY));
      case 0x3 => r := BlockMove(ag, TDD);
      case 0x4 => r := ZeroPageRead(ag, CPY, RY, None);
      case 0x5 => r := ZeroPageRead(ag, CMP, RA, None);
      case 0x6 => r := ZeroPageModify(ag, DEC, None);
      case 0x7 => r := SetMemoryBit(ag, 4);
      case 0x8 => r := Implied(ag, INC, RY);
      case 0x9 => r := Immediate(ag, CMP, RA);
      case 0xA => r := Implied(ag, DEC, RX);
      case 0xB => r := Nop(ag);
      case 0xC => r := AbsoluteRead(ag, CPY, RY, None);
      case 0xD => r := AbsoluteRead(ag, CMP, RA, None);
      case 0xE => r := AbsoluteModify(ag, DEC, None);
      case _ => r := BranchIfBit(ag, 4, true);
    }
  }

  method RowD(ag: SwitchGen, lo: int, tbit: bool) returns (r: seq<seq<Op>>)
    requires 0 <= lo < 16 && ag.Fresh() && ag.aim == AimOf(0xD0 + lo)
    requires ag.isMem == (tbit && 0xD0 + lo > 0xE0)
    requires tbit ==> !HasTForm(0xD0 + lo)
    modifies ag
    ensures Entry(0xD0 + lo, tbit, r)
  {
    hide SwitchGen.Fresh, Compile, IsCertified, Text;
    match lo {
      case 0x0 => r := Branch(ag, Some((FZ, false)));
      case 0x1 => r := IndirectYRead(ag, CMP, RA);
      case 0x2 => r := IndirectRead(ag, CMP, RA, None);
      case 0x3 => r := BlockMove(ag, TIN);
      case 0x4 => r := ChangeSpeed(ag, 3);
      case 0x5 => r := ZeroPageRead(ag, CMP, RA, Some(RX));
      case 0x6 => r := ZeroPageModify(ag, DEC, Some(RX));
      case 0x7 => r := SetMemoryBit(ag, 5);
      case 0x8 => r := Clear(ag, Flag(FD));
      case 0x9 => r := AbsoluteRead(ag, CMP, RA, Some(RY));
      case 0xA => r := Push(ag, Reg(RX));
      case 0xB => r := Nop(ag);
      case 0xC => r := Nop(ag);
      case 0xD => r := AbsoluteRead(ag, CMP, RA, Some(RX));
      case 0xE => r := AbsoluteModify(ag, DEC, Some(RX));
      case _ => r := BranchIfBit(ag, 5, true);
    }
  }

  method RowE(ag: SwitchGen, lo: int, tbit: bool) returns (r: seq<seq<Op>>)
    requires 0 <= lo < 16 && ag.Fresh() && ag.aim == AimOf(0xE0 + lo)
    requires ag.isMem == (tbit && 0xE0 + lo > 0xE0)
    requires tbit ==> !HasTForm(0xE0 + lo)
    modifies ag
    ensures Entry(0xE0 + lo, tbit, r)
  {
    hide SwitchGen.Fresh, Compile, IsCertified, Text;
    match lo {
      case 0x0 => r := Immediate(ag, CPX, RX);
      case 0x1 => r := IndirectRead(ag, SBC, RA, Some(RX));
      case 0x2 => r := Nop(ag);
      case 0x3 => r := BlockMove(ag, TIA);
      case 0x4 => r := ZeroPageRead(ag, CPX, RX, None);
      case 0x5 => r := ZeroPageRead(ag, SBC, RA, None);
      case 0x6 => r := ZeroPageModify(ag, INC, None);
      case 0x7 => r := SetMemoryBit(ag, 6);
      case 0x8 => r := Implied(ag, INC, RX);
      case 0x9 => r := Immediate(ag, SBC, RA);
      case 0xA => r := Nop(ag);
      case 0xB => r := Nop(ag);
      case 0xC => r := AbsoluteRead(ag, CPX, RX, None);
      case 0xD => r := AbsoluteRead(ag, SBC, RA, None);
      case 0xE => r := AbsoluteModify(ag, INC, None);
      case _ => r := BranchIfBit(ag, 6, true);
    }
  }

  method RowF(ag: SwitchGen, lo: int, tbit: bool) returns (r: seq<seq<Op>>)
    requires 0 <= lo < 16 && ag.Fresh() && ag.aim == AimOf(0xF0 + lo)
    requires ag.isMem == (tbit && 0xF0 + lo > 0xE0)
    requires tbit ==> !HasTForm(0xF0 + lo)
    modifies ag
    ensures Entry(0xF0 + lo, tbit, r)
  {
    hide SwitchGen.Fresh, Compile, IsCertified, Text;
    match lo {
      case 0x0 => r := Branch(ag, Some((FZ, true)));
      case 0x1 => r := IndirectYRead(ag, SBC, RA);
      case 0x2 => r := IndirectRead(ag, SBC, RA, None);
      case 0x3 => r := BlockMove(ag, TAI);
      case 0x4 => r := SetTo1(ag, FT);
      case 0x5 => r := ZeroPageRead(ag, SBC, RA, Some(RX));
      case 0x6 => r := ZeroPageModify(ag, INC, Some(RX));
      case 0x7 => r := SetMemoryBit(ag, 7);
      case 0x8 => r := SetTo1(ag, FD);
      case 0x9 => r := AbsoluteRead(ag, SBC, RA, Some(RY));
      case 0xA => r := Pull(ag, RX);
      case 0xB => r := Nop(ag);
      case 0xC => r := Nop(ag);
      case 0xD => r := AbsoluteRead(ag, SBC, RA, Some(RX));
      case 0xE => r := AbsoluteModify(ag, INC, Some(RX));
      case _ => r := BranchIfBit(ag, 7, true);
    }
  }

  method RowVectors(ag: SwitchGen, lo: int, tbit: bool) returns (r: seq<seq<Op>>)
    requires 0 <= lo < 4 && ag.Fresh() && ag.aim == AimOf(0x100 + lo)
    requires ag.isMem == (tbit && 0x100 + lo > 0xE0)
    requires tbit ==> !HasTForm(0x100 + lo)
    modifies ag
    ensures Entry(0x100 + lo, tbit, r)
  {
    hide SwitchGen.Fresh, Compile, IsCertified, Text;
    match lo {
      case 0x0 => r := Reset(ag);
      case 0x1 => r := Interrupt(ag, 0xFFF6);
      case 0x2 => r := Interrupt(ag, 0xFFF8);
      case _ => r := Interrupt(ag, 0xFFFA);
    }
  }

  /** The T-mode forms of ORA, AND, EOR and ADC. */
  method TRow(ag: SwitchGen, opcode: int) returns (r: seq<seq<Op>>)
    requires HasTForm(opcode) && ag.Fresh() && !ag.isMem && ag.aim == AimOf(opcode)
    modifies ag
    ensures Entry(opcode, true, r)
  {
    hide SwitchGen.Fresh, Compile, IsCertified, Text;
    var al := TAlu(opcode);
    match ModeOf(opcode % 0x20).value {
      case Ind(inx) => r := IndirectReadMemory(ag, al, inx);
      case Zp(inx) => r := ZeroPageReadMemory(ag, al, inx);
      case Imm => r := ImmediateMemory(ag, al);
      case Abso(inx) => r := AbsoluteReadMemory(ag, al, inx);
      case IndY => r := IndirectYReadMemory(ag, al);
    }
  }

  method WriteInstruction(opcode: int, tbit: bool) returns (r: seq<seq<Op>>)
    requires 0 <= opcode < ENTRIES
    ensures Entry(opcode, tbit, r)
  {
    hide Entry, InstrOf, AimOf, HasTForm;
    var ag := new SwitchGen(AimOf(opcode));
    if tbit && HasTForm(opcode) {
      r := TRow(ag, opcode);
      return;
    }
    if tbit && opcode > 0xE0 {
      ag.isMem := true;
    }
    if opcode < 0x80 {
      r := LowRows(ag, opcode / 16, opcode % 16, tbit);
    } else {
      r := HighRows(ag, opcode / 16, opcode % 16, tbit);
    }
  }

  method LowRows(ag: SwitchGen, hi: int, lo: int, tbit: bool) returns (r: seq<seq<Op>>)
    requires 0 <= hi < 8 && 0 <= lo < 16 && ag.Fresh() && ag.aim == AimOf(16 * hi + lo)
    requires ag.isMem == (tbit && 16 * hi + lo > 0xE0) && (tbit ==> !HasTForm(16 * hi + lo))
    modifies ag
    ensures Entry(16 * hi + lo, tbit, r)
  {
    hide Entry, InstrOf, AimOf, HasTForm, SwitchGen.Fresh;
    match hi {
      case 0x0 => r := Row0(ag, lo, tbit);
      case 0x1 => r := Row1(ag, lo, tbit);
      case 0x2 => r := Row2(ag, lo, tbit);
      case 0x3 => r := Row3(ag, lo, tbit);
      case 0x4 => r := Row4(ag, lo, tbit);
      case 0x5 => r := Row5(ag, lo, tbit);
      case 0x6 => r := Row6(ag, lo, tbit);
      case 0x7 => r := Row7(ag, lo, tbit);
    }
  }

  method HighRows(ag: SwitchGen, hi: int, lo: int, tbit: bool) returns (r: seq<seq<Op>>)
    requires 8 <= hi <= 16 && 0 <= lo < 16 && 16 * hi + lo < ENTRIES && ag.Fresh() && ag.aim == AimOf(16 * hi + lo)
    requires ag.isMem == (tbit && 16 * hi + lo > 0xE0) && (tbit ==> !HasTForm(16 * hi + lo))
    modifies ag
    ensures Entry(16 * hi + lo, tbit, r)
  {
    hide Entry, InstrOf, AimOf, HasTForm, SwitchGen.Fresh;
    match hi {
      case 0x8 => r := Row8(ag, lo, tbit);
      case 0x9 => r := Row9(ag, lo, tbit);
      case 0xA => r := RowA(ag, lo, tbit);
      case 0xB => r := RowB(ag, lo, tbit);
      case 0xC => r := RowC(ag, lo, tbit);
      case 0xD => r := RowD(ag, lo, tbit);
      case 0xE => r := RowE(ag, lo, tbit);
      case 0xF => r := RowF(ag, lo, tbit);
      case _ => r := RowVectors(ag, lo, tbit);
    }
  }

  /** main: both halves of decoded_opcodes. */
  method WriteTable() returns (table: seq<seq<seq<seq<Op>>>>)
    ensures IsTable(table)
  {
    hide Entry;
    table := [];
    for tbit := 0 to 2
      invariant |table| == tbit
      invariant forall t :: 0 <= t < tbit ==> |table[t]| == ENTRIES
      invariant forall t, i :: 0 <= t < tbit && 0 <= i < ENTRIES ==> Entry(i, t == 1, table[t][i])
    {
      var half: seq<seq<seq<Op>>> := [];
      for i := 0 to ENTRIES
        invariant |half| == i
        invariant forall j :: 0 <= j < i ==> Entry(j, tbit == 1, half[j])
      {
        var r := WriteInstruction(i, tbit == 1);
        half := half + [r];
      }
      table := table + [half];
    }
  }

  ghost predicate IsTable(table: seq<seq<seq<seq<Op>>>>) {
    && |table| == 2 && |table[0]| == |table[1]| == ENTRIES
    && forall t, i :: 0 <= t < 2 && 0 <= i < ENTRIES ==> Entry(i, t == 1, table[t][i])
  }
}
