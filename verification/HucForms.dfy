/** The addressing-mode functions: each drives the generator and returns the finished switch. */
module HucForms {
  import opened Common
  import opened HucMachine
  import opened HucMicrocode
  import opened HucCertify
  import opened HucSwitchgen
  import opened HucText

  // ----- What the shared requests add up to -----

  function GAbsolute(g: Gen, inx: Option<Reg>): Gen {
    Write(Close(Write(Fetched(Fetched(g, Some(RTA)), Some(RTR(0))), [JOIN_TA])), IndexOps(RTA, inx, W16))
  }

  function GPointer(g: Gen): Gen {
    Load(Write(Load(g, ASK_TA.m, TakeOps(Some(RTR(0)))), [NEXT_TA]), ASK_TA.m, TakeOps(Some(RTR(1))))
  }

  /** The open case that is about to ask for the operand. */
  function GAddr(m: Mode, g: Gen): Gen {
    match m
    case Imm => g
    case Zp(inx) => Write(Close(Fetched(g, Some(RTA))), IndexOps(RTA, inx, W8))
    case Abso(inx) => GAbsolute(g, inx)
    case Ind(inx) => Write(Close(GPointer(Close(Write(Fetched(g, Some(RTA)), IndexOps(RTA, inx, W8))))), [JOIN_PTR])
    case IndY => Write(Write(Close(GPointer(Close(Fetched(g, Some(RTA))))), [JOIN_PTR]), [ADD_Y])
  }

  function GRead(m: Mode): Gen {
    if m.Imm? then Close(Write(Ask(FRESH, [ADDR_PC], READ), [INC_PC]))
    else
      var g := Close(Ask(GAddr(m, FRESH), [AskOp(m)], READ));
      if m.Ind? then Write(g, [Take(RTR(0))]) else g
  }

  function GMem(m: Mode): Gen {
    var g := Write(FRESH, [SAVE_A]);
    var first := if m.Imm? then Fetched(g, Some(RTA))
                 else Load(GAddr(m, g), AskOp(m).m, TakeOps(Some(if m.Zp? then RA else MemSrc(m))));
    Load(first, ASK_X.m, TakeOps(Some(if m.Zp? then RTR(0) else RA)))
  }

  function GAl(g: Gen, f: AluOp, dst: Reg, src: Src, isMem: bool): Gen {
    var a := Write(g, [Just(Alu(f, dst, src))]);
    if f.ADC? && isMem then Close(a.(jump := Skip(NotDecimal)))
    else if f.SBC? && isMem then Close(Write(a, [BrEnd(NotDecimal)]))
    else if Splits(f) then Close(Ask(Write(a, [BrEnd(NotDecimal)]), [ADDR_PC], READ))
    else a
  }

  function GStore(g: Gen, f: AluOp, m: Mode): Gen {
    Write(Ask(Close(GAl(g, f, RA, Reg(MemSrc(m)), true)), [ASK_X, Just(Out(Reg(RA)))], WRITE), [RESTORE_A])
  }

  lemma AddrShape(m: Mode, g: Gen)
    requires !m.Imm? && g.cycles == [] && g.jump == Straight
    ensures var a := GAddr(m, g);
      a.jump == Straight && a.cycles + [C(a.pre + [AskOp(m)], READ)] == AddrCases(m, g.pre)
  {
    if m.Ind? || m.IndY? {
      IndirectShape(m, g);
    } else {
      Flatten<Op>();
      Flatten<Cycle>();
    }
  }

  lemma IndirectShape(m: Mode, g: Gen)
    requires (m.Ind? || m.IndY?) && g.cycles == [] && g.jump == Straight
    ensures var a := GAddr(m, g);
      a.jump == Straight && a.cycles + [C(a.pre + [AskOp(m)], READ)] == AddrCases(m, g.pre)
  {
    hide GPointer;
    Flatten<Op>();
    var fetched := Fetched(g, Some(RTA));
    if m.Ind? {
      var open := Close(Write(fetched, IndexOps(RTA, m.inx, W8)));
      assert open.cycles == [C(g.pre + [ADDR_PC], READ), C([Take(RTA), INC_PC] + IndexOps(RTA, m.inx, W8), IDLE)];
      PointerShape(open);
    } else {
      var open := Close(fetched);
      assert open.cycles == [C(g.pre + [ADDR_PC], READ), C([Take(RTA), INC_PC], IDLE)];
      PointerShape(open);
    }
  }

  lemma PointerShape(g: Gen)
    requires g.pre == [] && g.jump == Straight
    ensures var p := Close(GPointer(g));
      p.pre == [] && p.jump == Straight && p.want == IDLE && p.cycles == g.cycles + POINTER_CASES
  {
    Flatten<Op>();
  }

  lemma ReadShape(m: Mode, f: AluOp, dt: Reg, mem: bool)
    requires f.ADC? ==> !mem
    ensures Finish(GAl(GRead(m), f, dt, ReadSrc(m), mem), true, true, true) == Text(IRead(m, f, dt, mem))
  {
    hide EndOps, GAddr, AddrCases, GRead;
    var code, n := Text(IRead(m, f, dt, mem)), |AddrCases(m, [])|;
    ReadGen(m);
    var g1, alu := GRead(m), Just(Alu(f, dt, ReadSrc(m)));
    assert g1.cycles == code[..n];
    if Splits(f) {
      var g2 := Write(Write(g1, [alu]), [BrEnd(NotDecimal)]);
      var g3 := if f.SBC? && mem then g2 else Ask(g2, [ADDR_PC], READ);
      assert g3.pre == g1.pre + [alu] + if f.SBC? && mem then [BrEnd(NotDecimal)] else [BrEnd(NotDecimal), ADDR_PC];
      Closes(code, g3);
      assert [] + FETCH == FETCH;
      Footed(code, Close(g3), true, true);
    } else {
      Footed(code, Write(g1, [alu]), true, true);
    }
  }

  /** The operand byte is there. */
  lemma ReadGen(m: Mode)
    ensures var g := GRead(m);
      g.cycles == AddrCases(m, []) && g.pre == (if m.Ind? then [Take(RTR(0))] else []) && g.jump == Straight &&
        g.want == IDLE
  {
    hide GAddr, AddrCases;
    if m.Imm? {
      ReadImmediate();
    } else {
      AddrShape(m, FRESH);
      assert [] + [Take(RTR(0))] == [Take(RTR(0))];
    }
  }

  lemma ReadImmediate()
    ensures GRead(Imm).cycles == AddrCases(Imm, []) && GRead(Imm).pre == []
  {
    Flatten<Op>();
  }

  lemma MemLoadShape(m: Mode)
    ensures var g := GMem(m);
      && g.cycles == MemLoads(m) && g.pre == [Take(if m.Zp? then RTR(0) else RA)]
      && g.jump == Straight && g.want == IDLE
  {
    hide GAddr, AddrCases;
    if m.Imm? {
      MemLoadImmediate();
    } else {
      var g := Write(FRESH, [SAVE_A]);
      assert g.pre == [SAVE_A];
      AddrShape(m, g);
      var a := GAddr(m, g);
      var l := Load(a, AskOp(m).m, TakeOps(Some(if m.Zp? then RA else MemSrc(m))));
      assert l == Gen(AddrCases(m, [SAVE_A]), [Take(if m.Zp? then RA else MemSrc(m))], Straight, IDLE);
      assert l.pre + [ASK_X] == [Take(if m.Zp? then RA else MemSrc(m)), ASK_X];
      assert [] + [Take(if m.Zp? then RTR(0) else RA)] == [Take(if m.Zp? then RTR(0) else RA)];
    }
  }

  lemma MemLoadImmediate()
    ensures GMem(Imm).cycles == MemLoads(Imm) && GMem(Imm).pre == [Take(RA)]
  {
    Flatten<Op>();
    assert GMem(Imm).cycles == [] + [C([SAVE_A, ADDR_PC], READ)] + [C([Take(RTA), INC_PC, ASK_X], READ)];
  }

  lemma MemShape(m: Mode, f: AluOp)
    requires TForm(f)
    ensures Finish(GStore(GMem(m), f, m), false, true, true) == Text(IMem(m, f))
  {
    hide EndOps, GMem, MemLoads;
    Flatten<Op>();
    MemLoadShape(m);
    assert GStore(GMem(m), f, m).pre == [ASK_X, Just(Out(Reg(RA))), RESTORE_A];
  }

  // ----- Requests shared by several forms -----

  function AluAbs(ab: Abs, f: AluOp, dst: Reg, src: Src): Option<Abs> {
    AbsDo(Alu(f, dst, src), ab, false)
  }

  /** The al_* functions. */
  method Al(ag: SwitchGen, f: AluOp, dst: Reg, src: Src)
    requires ag.Ready() && AluAbs(ag.ab, f, dst, src).Some? && dst != RPC
    requires f.ADC? && ag.isMem ==> ag.g.want == IDLE
    requires Splits(f) && !(f.ADC? && ag.isMem) ==> !OldPins(ag.g).wr && PcFine(ag.ab, ag.aim)
    modifies ag
    ensures unchanged(ag`isMem, ag`hasFooter, ag`noTAtEnd, ag`overrideIRQ)
    ensures ag.Valid() && (!(f.ADC? && ag.isMem) ==> ag.Ready())
    ensures ag.g == GAl(old(ag.g), f, dst, src, ag.isMem) && ag.g.jump == Straight
    ensures f.ADC? && ag.isMem ==> ag.ab == AluAbs(old(ag.ab), f, dst, src).value && ag.Levels(IDLE, IDLE)
    ensures f.SBC? && ag.isMem ==>
      ag.ab == LatchAbs(AluAbs(old(ag.ab), f, dst, src).value, old(ag.g).want) && ag.Levels(IDLE, old(ag.g).want)
    ensures Splits(f) && !ag.isMem ==>
      ag.ab == ByteAt(AluAbs(old(ag.ab), f, dst, src).value, None) && ag.Levels(IDLE, READ)
    ensures !Splits(f) ==>
      ag.ab == AluAbs(old(ag.ab), f, dst, src).value && ag.Levels(old(ag.g).want, old(OldPins(ag.g)))
  {
    hide SwitchGen.Valid, AfterSkip, OldPins;
    ag.Addl(Alu(f, dst, src));
    if f.ADC? {
      if ag.isMem {
        ag.SkipNextIf(NotDecimal);
        ag.AddCycle();
      } else {
        ag.BrEndIf(NotDecimal);
        ag.DummyRead(false);
      }
    } else if f.SBC? {
      ag.BrEndIf(NotDecimal);
      if ag.isMem {
        ag.AddCycle();
      } else {
        ag.DummyRead(false);
      }
    }
  }

  /** The `if inx is not None` step of most functions. */
  method AddIndex(ag: SwitchGen, dst: Reg, inx: Option<Reg>, w: Width)
    requires ag.Ready() && IsIndex(inx) && (dst == RTA || dst == RTR(1)) && SizeOfReg(ag.ab, dst) == Widest(w)
    modifies ag
    ensures unchanged(ag`isMem, ag`hasFooter, ag`noTAtEnd, ag`overrideIRQ)
    ensures ag.Ready() && ag.g == Write(old(ag.g), IndexOps(dst, inx, w)) && ag.ab == old(ag.ab)
    ensures ag.Levels(old(ag.g).want, old(OldPins(ag.g)))
  {
    hide SwitchGen.Valid, IsOpen, OldPins;
    if inx.Some? {
      ag.Addl(Sum(dst, Reg(dst), Reg(inx.value), w));
      assert ag.ab.tr == old(ag.ab).tr && ag.ab == old(ag.ab);
    } else {
      assert ag.g.pre + [] == ag.g.pre;
    }
  }

  /** Two operand bytes joined in TA, an idle cycle, the index. */
  method AbsoluteAddress(ag: SwitchGen, inx: Option<Reg>)
    requires ag.Ready() && IsIndex(inx) && PcFine(ag.ab, ag.aim) && ag.g.want == IDLE
    modifies ag
    ensures unchanged(ag`isMem, ag`hasFooter, ag`noTAtEnd, ag`overrideIRQ)
    ensures ag.Ready() && ag.g == GAbsolute(old(ag.g), inx) && ag.Levels(IDLE, IDLE)
    ensures ag.ab == old(ag.ab).(d := Byte, pc := Half, ta := Half, tr := old(ag.ab).tr[0 := Byte])
  {
    hide SwitchGen.Valid, IsOpen, OldPins, Write, Close, Fetched;
    ag.Operand(Some(RTA), false);
    ag.Operand(Some(RTR(0)), false);
    ag.Addl(JOIN_TA.m);
    ag.AddCycle();
    AddIndex(ag, RTA, inx, W16);
  }

  /** Both bytes of the pointer at zero-page TA. */
  method PointerFetch(ag: SwitchGen)
    requires ag.Ready() && ag.ab.ta.Byte?
    modifies ag
    ensures unchanged(ag`isMem, ag`hasFooter, ag`noTAtEnd, ag`overrideIRQ)
    ensures ag.Ready() && ag.g == GPointer(old(ag.g)) && ag.Levels(IDLE, READ)
    ensures ag.ab == old(ag.ab).(d := Byte, tr := old(ag.ab).tr[0 := Byte][1 := Byte])
  {
    hide SwitchGen.Valid, IsOpen, OldPins, Write, Load;
    ag.LoadAt(Some(RTR(0)), ASK_TA.m, false);
    ag.Addl(NEXT_TA.m);
    ag.LoadAt(Some(RTR(1)), ASK_TA.m, false);
  }

  /** TA = lo | hi << 8 */
  method JoinTA(ag: SwitchGen, lo: Reg, hi: Reg)
    requires ag.Ready() && SizeOfReg(ag.ab, lo).Byte? && SizeOfReg(ag.ab, hi).Byte?
    modifies ag
    ensures unchanged(ag`isMem, ag`hasFooter, ag`noTAtEnd, ag`overrideIRQ)
    ensures ag.Ready() && ag.g == Write(old(ag.g), [Just(Join(RTA, Reg(lo), Reg(hi)))]) &&
      ag.ab == old(ag.ab).(ta := Half)
    ensures ag.Levels(old(ag.g).want, old(OldPins(ag.g)))
  {
    hide SwitchGen.Valid, IsOpen, OldPins, Write;
    ag.Addl(Join(RTA, Reg(lo), Reg(hi)));
  }

  /** TR[0] = D */
  method TakeTR0(ag: SwitchGen)
    requires ag.Ready() && ag.ab.d.Byte?
    modifies ag
    ensures unchanged(ag`isMem, ag`hasFooter, ag`noTAtEnd, ag`overrideIRQ)
    ensures ag.Ready() && ag.g == Write(old(ag.g), [Take(RTR(0))]) && ag.ab.pc == old(ag.ab).pc && ag.ab.tr[0].Byte?
    ensures ag.Levels(old(ag.g).want, old(OldPins(ag.g)))
  {
    hide SwitchGen.Valid, IsOpen, OldPins, Write;
    ag.Addl(Move(RTR(0), Data));
  }

  /** PC = PC | hi << 8 */
  method JoinPC(ag: SwitchGen, hi: Src)
    requires ag.Ready() && ag.ab.pc.Byte? && IsByte(ag.ab, hi)
    modifies ag
    ensures unchanged(ag`isMem, ag`hasFooter, ag`noTAtEnd, ag`overrideIRQ)
    ensures ag.Ready() && ag.g == Write(old(ag.g), [Just(Join(RPC, Reg(RPC), hi))]) && ag.ab == old(ag.ab).(pc := Half)
    ensures ag.Levels(old(ag.g).want, old(OldPins(ag.g)))
  {
    hide SwitchGen.Valid, IsOpen, OldPins, Write;
    ag.Addl(Join(RPC, Reg(RPC), hi));
  }

  /** Statements that change no sizes. */
  method Plain(ag: SwitchGen, m: Micro)
    requires ag.Ready() && (m.PutFlag? || m.DropBrk? || m.SetNZ? || m.Speed? || m.AddrFixed? || m.AddrNext? ||
      m.BlockMode? || m.PollIrqs? || m.ResetMachine?)
    requires (m.AddrFixed? ==> m.n < 0x200000) && (m.AddrNext? ==> !ag.aim.certify)
    modifies ag
    ensures unchanged(ag`isMem, ag`hasFooter, ag`noTAtEnd, ag`overrideIRQ)
    ensures ag.Ready() && ag.g == Write(old(ag.g), [Just(m)]) && ag.ab == old(ag.ab)
    ensures ag.Levels(old(ag.g).want, old(OldPins(ag.g)))
  {
    hide SwitchGen.Valid, IsOpen, OldPins, Write;
    ag.Addl(m);
  }

  /** TA = (a + b), masked. */
  method SumTA(ag: SwitchGen, a: Src, b: Src, w: Width)
    requires ag.Ready()
    modifies ag
    ensures unchanged(ag`isMem, ag`hasFooter, ag`noTAtEnd, ag`overrideIRQ)
    ensures ag.Ready() && ag.g == Write(old(ag.g), [Just(Sum(RTA, a, b, w))]) && ag.ab == old(ag.ab).(ta := Widest(w))
    ensures ag.Levels(old(ag.g).want, old(OldPins(ag.g)))
  {
    hide SwitchGen.Valid, IsOpen, OldPins, Write;
    ag.Addl(Sum(RTA, a, b, w));
  }

  /** Assign a byte to A, X, Y or S. */
  method PutMain(ag: SwitchGen, dst: Reg, v: Src)
    requires ag.Ready() && (IsMain(dst) || dst == RS) && IsByte(ag.ab, v)
    modifies ag
    ensures unchanged(ag`isMem, ag`hasFooter, ag`noTAtEnd, ag`overrideIRQ)
    ensures ag.Ready() && ag.g == Write(old(ag.g), [Just(Move(dst, v))]) && ag.ab == old(ag.ab)
    ensures ag.Levels(old(ag.g).want, old(OldPins(ag.g)))
  {
    hide SwitchGen.Valid, IsOpen, OldPins, Write;
    ag.Addl(Move(dst, v));
  }

  method PushPC(ag: SwitchGen)
    requires ag.Ready() && !ag.ab.pc.Full?
    modifies ag
    ensures unchanged(ag`isMem, ag`hasFooter, ag`noTAtEnd, ag`overrideIRQ)
    ensures ag.Ready() && ag.ab == old(ag.ab).(d := Byte) && ag.Levels(IDLE, WRITE)
    ensures ag.g == GPush16(old(ag.g))
  {
    hide SwitchGen.Valid, IsOpen, OldPins, Close, Ask;
    ag.Push(Hi(RPC), false);
    ag.Push(Lo(RPC), false);
  }

  /** The address of zp and zp,X or zp,Y. */
  method ZeroPageAddress(ag: SwitchGen, inx: Option<Reg>)
    requires ag.Ready() && IsIndex(inx) && PcFine(ag.ab, ag.aim)
    modifies ag
    ensures unchanged(ag`isMem, ag`hasFooter, ag`noTAtEnd, ag`overrideIRQ)
    ensures ag.Ready() && ag.g == GAddr(Zp(inx), old(ag.g)) && ag.Levels(IDLE, IDLE)
    ensures ag.ab == old(ag.ab).(d := Byte, pc := Half, ta := Byte)
  {
    hide SwitchGen.Valid, IsOpen, OldPins, Write, Close, Fetched;
    ag.Operand(Some(RTA), false);
    ag.AddCycle();
    AddIndex(ag, RTA, inx, W8);
  }

  /** The address of (zp) and (zp,X). */
  method IndirectAddress(ag: SwitchGen, inx: Option<Reg>)
    requires ag.Ready() && IsIndex(inx) && PcFine(ag.ab, ag.aim) && ag.g.want == IDLE
    modifies ag
    ensures unchanged(ag`isMem, ag`hasFooter, ag`noTAtEnd, ag`overrideIRQ)
    ensures ag.Ready() && ag.g == GAddr(Ind(inx), old(ag.g)) && ag.Levels(IDLE, IDLE)
    ensures ag.ab == old(ag.ab).(d := Byte, pc := Half, ta := Half, tr := old(ag.ab).tr[0 := Byte][1 := Byte])
  {
    hide SwitchGen.Valid, IsOpen, OldPins, Write, Close, Fetched, GPointer;
    ag.Operand(Some(RTA), false);
    AddIndex(ag, RTA, inx, W8);
    ag.AddCycle();
    PointerFetch(ag);
    ag.AddCycle();
    JoinTA(ag, RTR(0), RTR(1));
  }

  /** The address of (zp),Y. */
  method IndirectYAddress(ag: SwitchGen)
    requires ag.Ready() && PcFine(ag.ab, ag.aim) && ag.g.want == IDLE
    modifies ag
    ensures unchanged(ag`isMem, ag`hasFooter, ag`noTAtEnd, ag`overrideIRQ)
    ensures ag.Ready() && ag.g == GAddr(IndY, old(ag.g)) && ag.Levels(IDLE, IDLE)
    ensures ag.ab == old(ag.ab).(d := Byte, pc := Half, ta := Half, tr := old(ag.ab).tr[0 := Byte][1 := Byte])
  {
    hide SwitchGen.Valid, IsOpen, OldPins, Write, Close, Fetched, GPointer;
    ag.Operand(Some(RTA), false);
    ag.AddCycle();
    PointerFetch(ag);
    ag.AddCycle();
    JoinTA(ag, RTR(0), RTR(1));
    SumTA(ag, Reg(RTA), Reg(RY), W16);
  }

  /** The arithmetic and the end of a form outside T mode. */
  method ReadTail(ag: SwitchGen, m: Mode, f: AluOp, dt: Reg) returns (r: seq<seq<Op>>)
    requires ag.Ready() && ag.hasFooter && !ag.noTAtEnd && !ag.overrideIRQ && PcFine(ag.ab, ag.aim)
    requires IsMain(dt) && ag.Levels(IDLE, READ) && ag.g == GRead(m)
    requires if m.Ind? then ag.ab.tr[0].Byte? else ag.ab.d.Byte?
    requires f.ADC? ==> !ag.isMem
    modifies ag
    ensures r == Compile(Text(IRead(m, f, dt, old(ag.isMem))))
    ensures ag.aim.certify ==> IsCertified(r, ag.aim.wraps, true, true)
  {
    hide SwitchGen.Valid, IsOpen, OldPins, Compile, IsCertified, GRead, ReadCode, Finish, GAl;
    ReadShape(m, f, dt, ag.isMem);
    Al(ag, f, dt, ReadSrc(m));
    r := ag.Finished();
  }

  /** The arithmetic and the end of a form in T mode. */
  method MemTail(ag: SwitchGen, m: Mode, f: AluOp) returns (r: seq<seq<Op>>)
    requires ag.Ready() && ag.isMem && !ag.hasFooter && !ag.noTAtEnd && !ag.overrideIRQ && PcFine(ag.ab, ag.aim)
    requires TForm(f) && ag.Levels(IDLE, READ) && ag.g == GMem(m)
    requires ag.ab.tr[2].Byte? && SizeOfReg(ag.ab, MemSrc(m)).Byte?
    modifies ag
    ensures r == Compile(Text(IMem(m, f)))
    ensures ag.aim.certify ==> IsCertified(r, ag.aim.wraps, true, true)
  {
    hide SwitchGen.Valid, IsOpen, OldPins, Compile, IsCertified, GMem, MemCode, Text, Finish, GAl, Write, Close, Ask;
    MemShape(m, f);
    Al(ag, f, RA, Reg(MemSrc(m)));
    ag.AddCycle();
    ag.StoreAt(ASK_X.m, Reg(RA), true);
    PutMain(ag, RA, Reg(RTR(2)));
    r := ag.Finished();
  }


  // ----- Subroutines, interrupts, block moves -----

  function GPush(g: Gen, v: Src): Gen {
    Close(Ask(g, PushOps(v), WRITE))
  }

  function GPush16(g: Gen): Gen {
    GPush(GPush(g, Hi(RPC)), Lo(RPC))
  }

  function GPull(g: Gen, latch: Op): Gen {
    Write(Close(Ask(g, PULL_OPS, READ)), [latch])
  }

  /** The first cases of `code` have been written, and the next is open. */
  predicate Follows(code: seq<Cycle>, g: Gen) {
    |g.cycles| < |code| && g.cycles == code[..|g.cycles|] && g.jump == Straight
  }

  lemma Closes(code: seq<Cycle>, g: Gen)
    requires Follows(code, g) && code[|g.cycles|] == C(g.pre, g.want) && |g.cycles| + 1 < |code|
    ensures Follows(code, Close(g)) && |Close(g).cycles| == |g.cycles| + 1
  {
  }

  lemma Loads(code: seq<Cycle>, g: Gen, addr: Micro, ops: seq<Op>)
    requires Follows(code, g) && code[|g.cycles|] == C(g.pre + [Just(addr)], READ) && |g.cycles| + 1 < |code|
    ensures var l := Load(g, addr, ops);
      Follows(code, l) && |l.cycles| == |g.cycles| + 1 && l.pre == ops && l.want == IDLE
  {
    Closes(code, Ask(g, [Just(addr)], READ));
    assert [] + ops == ops;
  }

  /** The open case is the last but one. */
  lemma Ends(code: seq<Cycle>, g: Gen, poll: bool, clearT: bool)
    requires Follows(code, g) && code[|g.cycles|] == C(g.pre, g.want)
    requires |code| == |g.cycles| + 2 && code[|g.cycles| + 1] == Ending([], poll, clearT)
    ensures Finish(g, false, poll, clearT) == code
  {
    assert [] + FETCH == FETCH;
  }

  /** The open case is the last. */
  lemma Footed(code: seq<Cycle>, g: Gen, poll: bool, clearT: bool)
    requires Follows(code, g) && |code| == |g.cycles| + 1 && code[|g.cycles|] == Ending(g.pre, poll, clearT)
    ensures Finish(g, true, poll, clearT) == code
  {
  }

  lemma AbsoluteIs(inx: Option<Reg>)
    ensures GAbsolute(FRESH, inx)
         == Gen([C([ADDR_PC], READ), C([Take(RTA), INC_PC, ADDR_PC], READ), C([Take(RTR(0)), INC_PC, JOIN_TA], IDLE)],
                IndexOps(RTA, inx, W16), Straight, IDLE)
  {
    hide IndexOps;
    Flatten<Op>();
  }

  lemma ZeroIs(inx: Option<Reg>)
    ensures GAddr(Zp(inx), FRESH)
         == Gen([C([ADDR_PC], READ), C([Take(RTA), INC_PC], IDLE)], IndexOps(RTA, inx, W8), Straight, IDLE)
  {
    hide IndexOps;
    Flatten<Op>();
  }

  lemma PointerIs(code: seq<Cycle>, g: Gen)
    requires Follows(code, g) && |g.cycles| + 2 < |code| && code[|g.cycles|] == C(g.pre + [ASK_TA], READ)
    requires code[|g.cycles| + 1] == C([Take(RTR(0)), NEXT_TA, ASK_TA], READ)
    ensures var p := GPointer(g);
      Follows(code, p) && |p.cycles| == |g.cycles| + 2 && p.pre == [Take(RTR(1))] && p.want == IDLE
  {
    Loads(code, g, ASK_TA.m, TakeOps(Some(RTR(0))));
    var g1 := Write(Load(g, ASK_TA.m, TakeOps(Some(RTR(0)))), [NEXT_TA]);
    assert g1.pre + [ASK_TA] == [Take(RTR(0)), NEXT_TA, ASK_TA];
    Loads(code, g1, ASK_TA.m, TakeOps(Some(RTR(1))));
  }

  lemma Dummies(code: seq<Cycle>)
    requires |code| > 1 && code[0] == C([ADDR_PC], READ)
    ensures var g := Close(Ask(FRESH, [ADDR_PC], READ));
      Follows(code, g) && |g.cycles| == 1 && g.pre == [] && g.want == IDLE
  {
    assert [] + [ADDR_PC] == [ADDR_PC];
    Closes(code, Ask(FRESH, [ADDR_PC], READ));
  }

  /** Everything after the dummy read goes to the last case. */
  lemma ShortIs(g: Gen, op: Op, poll: bool, clearT: bool)
    requires g == Close(Ask(FRESH, [ADDR_PC], READ))
    ensures Finish(Write(g, [op]), true, poll, clearT) == ShortCode([op], poll, clearT)
  {
    var code := ShortCode([op], poll, clearT);
    Dummies(code);
    assert [] + [op] == [op];
    Footed(code, Write(g, [op]), poll, clearT);
  }

  /** An operand fetched into `dest`. */
  lemma Fetches(code: seq<Cycle>, g: Gen, dest: Reg)
    requires Follows(code, g) && code[|g.cycles|] == C(g.pre + [ADDR_PC], READ) && |g.cycles| + 1 < |code|
    ensures var f := Fetched(g, Some(dest));
      Follows(code, f) && |f.cycles| == |g.cycles| + 1 && f.pre == [Take(dest), INC_PC] && f.want == IDLE
  {
    Loads(code, g, ADDR_PC.m, TakeOps(Some(dest)));
    assert [Take(dest)] + [INC_PC] == [Take(dest), INC_PC];
  }

  lemma Pushes(code: seq<Cycle>, g: Gen, v: Src)
    requires Follows(code, g) && code[|g.cycles|] == C(g.pre + PushOps(v), WRITE) && |g.cycles| + 1 < |code|
    ensures var p := GPush(g, v); Follows(code, p) && |p.cycles| == |g.cycles| + 1 && p.pre == [] && p.want == IDLE
  {
    Closes(code, Ask(g, PushOps(v), WRITE));
  }

  lemma Pulls(code: seq<Cycle>, g: Gen, latch: Op)
    requires Follows(code, g) && code[|g.cycles|] == C(g.pre + PULL_OPS, READ) && |g.cycles| + 1 < |code|
    ensures var p := GPull(g, latch);
      Follows(code, p) && |p.cycles| == |g.cycles| + 1 && p.pre == [latch] && p.want == IDLE
  {
    Closes(code, Ask(g, PULL_OPS, READ));
    assert [] + [latch] == [latch];
  }

  lemma CallShape()
    ensures var g1 := Write(Fetched(GPush16(Close(Fetched(FRESH, Some(RTA)))), Some(RTR(0))), [JOIN_TA]);
      Finish(Write(g1, [Just(Move(RPC, Reg(RTA)))]), false, true, true) == Text(ICall)
  {
    hide EndOps, GPush, GPull, Fetched, Load;
    var code := CallCode();
    assert Text(ICall) == code;
    hide Text;
    assert [] + [ADDR_PC] == [ADDR_PC];
    Fetches(code, FRESH, RTA);
    var g1 := Fetched(FRESH, Some(RTA));
    Closes(code, g1);
    assert [] + PushOps(Hi(RPC)) == PushOps(Hi(RPC));
    Pushes(code, Close(g1), Hi(RPC));
    var g2 := GPush(Close(g1), Hi(RPC));
    assert [] + PushOps(Lo(RPC)) == PushOps(Lo(RPC));
    Pushes(code, g2, Lo(RPC));
    var g3 := GPush(g2, Lo(RPC));
    Fetches(code, g3, RTR(0));
    var g4 := Write(Write(Fetched(g3, Some(RTR(0))), [JOIN_TA]), [Just(Move(RPC, Reg(RTA)))]);
    assert g4.pre == [Take(RTR(0)), INC_PC, JOIN_TA, Just(Move(RPC, Reg(RTA)))];
    Ends(code, g4, true, true);
  }

  lemma ReturnShape()
    ensures var g1 := GPull(GPull(Close(Close(Ask(FRESH, [ADDR_PC], READ))), Take(RPC)), Take(RTA));
      Finish(Write(Close(Write(g1, [JOIN_PC])), [INC_PC]), false, true, true) == Text(IReturn)
  {
    hide EndOps, GPush, GPull, Fetched, Load;
    var code := ReturnCode();
    assert Text(IReturn) == code;
    hide Text;
    Dummies(code);
    var g1 := Close(Ask(FRESH, [ADDR_PC], READ));
    Closes(code, g1);
    assert [] + PULL_OPS == PULL_OPS;
    Pulls(code, Close(g1), Take(RPC));
    var g2 := GPull(Close(g1), Take(RPC));
    Pulls(code, g2, Take(RTA));
    var g3 := Write(GPull(g2, Take(RTA)), [JOIN_PC]);
    assert g3.pre == [Take(RTA), JOIN_PC];
    Closes(code, g3);
    var g4 := Write(Close(g3), [INC_PC]);
    assert g4.pre == [INC_PC];
    Ends(code, g4, true, true);
  }

  lemma ReturnFromInterruptShape()
    ensures var g1 := GPull(Close(Close(Ask(FRESH, [ADDR_PC], READ))), Just(LoadStatus));
      var g2 := Write(GPull(GPull(Write(g1, [Just(DropBrk)]), Take(RPC)), Take(RTA)), [JOIN_PC]);
      Finish(Close(g2), true, true, false) == Text(IReturnInt)
  {
    hide EndOps, GPush, GPull, Fetched, Load;
    var code := ReturnFromInterruptCode();
    assert Text(IReturnInt) == code;
    hide Text;
    Dummies(code);
    var g1 := Close(Ask(FRESH, [ADDR_PC], READ));
    Closes(code, g1);
    assert [] + PULL_OPS == PULL_OPS;
    Pulls(code, Close(g1), Just(LoadStatus));
    var g2 := Write(GPull(Close(g1), Just(LoadStatus)), [Just(DropBrk)]);
    assert g2.pre == [Just(LoadStatus), Just(DropBrk)];
    Pulls(code, g2, Take(RPC));
    var g3 := GPull(g2, Take(RPC));
    Pulls(code, g3, Take(RTA));
    var g4 := Write(GPull(g3, Take(RTA)), [JOIN_PC]);
    assert g4.pre == [Take(RTA), JOIN_PC];
    Closes(code, g4);
    assert [] + FETCH == FETCH;
    Footed(code, Close(g4), true, false);
  }

  lemma BranchSubroutineShape()
    ensures var g1 := Close(Write(Fetched(FRESH, Some(RTA)), [Just(Move(RTA, Signed(RTA)))]));
      var g2 := GPush(Write(g1, [Just(Sum(RTR(0), Reg(RPC), Num(-1), W16))]), Hi(RTR(0)));
      var g3 := Close(GPush(Write(g2, [Just(Sum(RPC, Reg(RPC), Reg(RTA), W32))]), Lo(RTR(0))));
      Finish(Close(g3), false, true, true) == Text(IBranchSub)
  {
    hide EndOps, GPush, GPull, Fetched, Load;
    var code := BranchSubroutineCode();
    assert Text(IBranchSub) == code;
    hide Text;
    assert [] + [ADDR_PC] == [ADDR_PC];
    Fetches(code, FRESH, RTA);
    var g1 := Write(Fetched(FRESH, Some(RTA)), [Just(Move(RTA, Signed(RTA)))]);
    assert g1.pre == [Take(RTA), INC_PC, Just(Move(RTA, Signed(RTA)))];
    Closes(code, g1);
    var g2 := Write(Close(g1), [Just(Sum(RTR(0), Reg(RPC), Num(-1), W16))]);
    assert g2.pre == [Just(Sum(RTR(0), Reg(RPC), Num(-1), W16))];
    Pushes(code, g2, Hi(RTR(0)));
    var g3 := Write(GPush(g2, Hi(RTR(0))), [Just(Sum(RPC, Reg(RPC), Reg(RTA), W32))]);
    assert g3.pre == [Just(Sum(RPC, Reg(RPC), Reg(RTA), W32))];
    Pushes(code, g3, Lo(RTR(0)));
    var g4 := GPush(g3, Lo(RTR(0)));
    Closes(code, g4);
    Closes(code, Close(g4));
    Ends(code, Close(Close(g4)), true, true);
  }

  lemma InterruptShape(vector: int)
    ensures var g1 := Close(Ask(Close(Ask(FRESH, [ADDR_PC], READ)), [ADDR_PC], READ));
      var g2 := GPush16(Write(g1, [Just(Sum(RPC, Reg(RPC), Num(-1), W16))]));
      var g3 := Write(GPush(g2, Status(false, true)), [Just(PutFlag(FI, true))]);
      var g4 := Write(Write(g3, [Just(PutFlag(FD, false))]), [Just(PutFlag(FT, false))]);
      var g5 := Load(Write(g4, [Just(Move(RTA, Num(vector)))]), ASK_MEM.m, TakeOps(Some(RPC)));
      var g6 := Close(Ask(Write(g5, [Just(Sum(RTA, Reg(RTA), Num(1), W16))]), [ASK_MEM], READ));
      Finish(Write(g6, [Just(Join(RPC, Reg(RPC), Data))]), true, true, true) == Text(IInterrupt(vector))
  {
    hide EndOps, GPush, GPull, Fetched, Load;
    var code := InterruptCode(vector);
    assert Text(IInterrupt(vector)) == code;
    hide Text;
    Dummies(code);
    var g1 := Close(Ask(FRESH, [ADDR_PC], READ));
    var g2 := Ask(g1, [ADDR_PC], READ);
    assert g2.pre == [ADDR_PC];
    Closes(code, g2);
    var g3 := Write(Close(g2), [Just(Sum(RPC, Reg(RPC), Num(-1), W16))]);
    assert g3.pre == [Just(Sum(RPC, Reg(RPC), Num(-1), W16))];
    Pushes(code, g3, Hi(RPC));
    var g4 := GPush(g3, Hi(RPC));
    assert g4.pre + PushOps(Lo(RPC)) == PushOps(Lo(RPC));
    Pushes(code, g4, Lo(RPC));
    var g5 := GPush(g4, Lo(RPC));
    assert g5.pre + PushOps(Status(false, true)) == PushOps(Status(false, true));
    Pushes(code, g5, Status(false, true));
    var g6 := GPush(g5, Status(false, true));
    var g7 := Write(Write(Write(Write(g6, [Just(PutFlag(FI, true))]), [Just(PutFlag(FD, false))]),
      [Just(PutFlag(FT, false))]),
                    [Just(Move(RTA, Num(vector)))]);
    assert g7.pre == [Just(PutFlag(FI, true)), Just(PutFlag(FD, false)), Just(PutFlag(FT, false)),
      Just(Move(RTA, Num(vector)))];
    assert code[5] == C(g7.pre + [ASK_MEM], READ);
    Loads(code, g7, ASK_MEM.m, TakeOps(Some(RPC)));
    var g8 := Write(Load(g7, ASK_MEM.m, TakeOps(Some(RPC))), [Just(Sum(RTA, Reg(RTA), Num(1), W16))]);
    var g9 := Ask(g8, [ASK_MEM], READ);
    assert g9.pre == [Take(RPC), Just(Sum(RTA, Reg(RTA), Num(1), W16)), ASK_MEM];
    Closes(code, g9);
    var g10 := Write(Close(g9), [Just(Join(RPC, Reg(RPC), Data))]);
    assert g10.pre == [Just(Join(RPC, Reg(RPC), Data))];
    Footed(code, g10, true, true);
  }

  function GOperands(g: Gen, i: Slot, j: Slot): Gen {
    Write(Fetched(Fetched(g, Some(RTR(i))), Some(RTR(j))), [JoinTR(i, j)])
  }

  function GBlockPushed(): Gen {
    GPush(GPush(GPush(Close(Close(Ask(FRESH, [ADDR_PC], READ))), Reg(RY)), Reg(RA)), Reg(RX))
  }

  function GBlockStart(): Gen {
    var pushed := GBlockPushed();
    Close(Write(Write(Close(GOperands(GOperands(GOperands(pushed, 0, 6), 1, 5), 2, 5)),
      [Just(BlockMode(true))]), [Just(Move(RTR(3), Num(0)))]))
  }

  function GMove(g: Gen, k: MoveKind): Gen {
    var ops := MoveOps(k);
    if |ops| == 1 then Write(g, [ops[0]]) else Write(Write(g, [ops[0]]), [ops[1]])
  }

  lemma OperandsShape(g: Gen, i: Slot, j: Slot)
    requires g.jump == Straight
    ensures var o := GOperands(g, i, j);
      && o.cycles == g.cycles + [C(g.pre + [ADDR_PC], READ), C([Take(RTR(i)), INC_PC, ADDR_PC], READ)]
      && o.pre == [Take(RTR(j)), INC_PC, JoinTR(i, j)] && o.jump == Straight && o.want == IDLE
  {
    Flatten<Op>();
  }

  lemma PushedShape()
    ensures var g := GBlockPushed();
      g.cycles == BlockSetup()[..5] && g.pre == [] && g.jump == Straight
  {
    Flatten<Op>();
    Flatten<Cycle>();
    var g1 := Close(Close(Ask(FRESH, [ADDR_PC], READ)));
    assert g1.cycles == [C([ADDR_PC], READ), C([], IDLE)];
    var g2 := GPush(g1, Reg(RY));
    assert g2.cycles == [C([ADDR_PC], READ), C([], IDLE), C(PushOps(Reg(RY)), WRITE)];
    var g3 := GPush(g2, Reg(RA));
    var g4 := GPush(g3, Reg(RX));
    assert g4.cycles == [C([ADDR_PC], READ), C([], IDLE), C(PushOps(Reg(RY)), WRITE), C(PushOps(Reg(RA)), WRITE),
      C(PushOps(Reg(RX)), WRITE)];
  }

  lemma BlockStartShape()
    ensures var g := GBlockStart();
      g.cycles == BlockSetup() && g.pre == [] && g.jump == Straight && g.want == IDLE
  {
    hide GBlockPushed, GOperands;
    PushedShape();
    var pushed := GBlockPushed();
    assert pushed.pre + [ADDR_PC] == [ADDR_PC];
    OperandsShape(pushed, 0, 6);
    var one := GOperands(pushed, 0, 6);
    assert one.cycles == BlockSetup()[..7];
    OperandsShape(one, 1, 5);
    var two := GOperands(one, 1, 5);
    assert one.pre + [ADDR_PC] == [Take(RTR(6)), INC_PC, JoinTR(0, 6), ADDR_PC];
    assert two.cycles == BlockSetup()[..9];
    OperandsShape(two, 2, 5);
    var three := GOperands(two, 2, 5);
    assert two.pre + [ADDR_PC] == [Take(RTR(5)), INC_PC, JoinTR(1, 5), ADDR_PC];
    assert three.cycles == BlockSetup()[..11];
    assert Close(three).cycles == BlockSetup()[..12];
    assert NO_OPS + [Just(BlockMode(true))] + [Just(Move(RTR(3), Num(0)))] == BlockSetup()[12].pre;
  }

  lemma MoveShape(g: Gen, k: MoveKind)
    requires g.pre == []
    ensures GMove(g, k) == g.(pre := MoveOps(k))
  {
    Flatten<Op>();
  }

  function GCopied(g: Gen): Gen {
    Close(Ask(Close(Load(g, AddrMapped(Reg(RTR(0))), TakeOps(Some(RTR(4))))),
      [Just(AddrMapped(Reg(RTR(1)))), Just(Out(Reg(RTR(4))))], WRITE))
  }

  function GBody(g: Gen, k: MoveKind): Gen {
    var moved := GMove(GCopied(g), k);
    var counted := Write(Close(Close(Write(moved, [Just(Toggle(RTR(3)))]))),
      [Just(Sum(RTR(2), Reg(RTR(2)), Num(-1), W16))]);
    Close(counted.(jump := Loop))
  }

  lemma BodyShape(g: Gen, k: MoveKind)
    requires g.pre == [] && g.jump == Straight && g.want == IDLE
    ensures var b := GBody(g, k);
      b.cycles == g.cycles + BlockBody(k) && b.pre == [] && b.jump == Straight && b.want == IDLE
  {
    hide GMove, MoveOps;
    Flatten<Op>();
    var stored := GCopied(g);
    assert stored.cycles == g.cycles + BlockBody(k)[..3];
    MoveShape(stored, k);
    var moved := GMove(stored, k);
    var twice := Close(Close(Write(moved, [Just(Toggle(RTR(3)))])));
    assert twice.cycles == g.cycles + BlockBody(k)[..5];
  }

  function GBlock(k: MoveKind): Gen {
    GPull(GPull(Write(GPull(GBody(GBlockStart(), k), Take(RX)), [Just(BlockMode(false))]), Take(RA)), Take(RY))
  }

  lemma BlockShape(k: MoveKind)
    ensures Finish(GBlock(k), true, true, true) == Text(IMove(k))
  {
    hide EndOps, GBlockStart, BlockBody, BlockSetup, GBody;
    Flatten<Op>();
    BlockStartShape();
    BodyShape(GBlockStart(), k);
  }

  /** Dummy read, idle cycle, three pushes. */
  method BlockPushes(ag: SwitchGen)
    requires ag.Fresh()
    modifies ag
    ensures unchanged(ag`isMem, ag`hasFooter, ag`noTAtEnd, ag`overrideIRQ)
    ensures ag.Ready() && ag.g == GBlockPushed() && ag.Levels(IDLE, WRITE) && ag.ab.pc.Half?
  {
    hide SwitchGen.Valid, IsOpen, OldPins, Write, Close, Ask, Fetched;
    ag.DummyRead(false);
    ag.AddCycle();
    ag.Push(Reg(RY), false);
    ag.Push(Reg(RA), false);
    ag.Push(Reg(RX), false);
  }

  /** The first thirteen cases of a block move. */
  method BlockStart(ag: SwitchGen)
    requires ag.Fresh()
    modifies ag
    ensures unchanged(ag`isMem, ag`hasFooter, ag`noTAtEnd, ag`overrideIRQ)
    ensures ag.Ready() && ag.g == GBlockStart() && ag.Levels(IDLE, IDLE) && ag.ab.pc.Half?
    ensures ag.ab.tr[0].Half? && ag.ab.tr[1].Half? && ag.ab.tr[2].Half? && ag.ab.tr[3].Byte?
  {
    hide SwitchGen.Valid, IsOpen, OldPins, Write, Close, Ask, Fetched, GBlockPushed, GOperands;
    BlockPushes(ag);
    Operands(ag, 0, 6);
    Operands(ag, 1, 5);
    Operands(ag, 2, 5);
    ag.AddCycle();
    ag.Addl(BlockMode(true));
    ag.Addl(Move(RTR(3), Num(0)));
    ag.AddCycle();
  }

  method Operands(ag: SwitchGen, i: Slot, j: Slot)
    requires ag.Ready() && ag.ab.pc.Half? && i != j
    modifies ag
    ensures unchanged(ag`isMem, ag`hasFooter, ag`noTAtEnd, ag`overrideIRQ)
    ensures ag.Ready() && ag.g == GOperands(old(ag.g), i, j) && ag.Levels(IDLE, READ)
    ensures ag.ab == old(ag.ab).(d := Byte, tr := old(ag.ab).tr[j := Byte][i := Half])
  {
    hide SwitchGen.Valid, IsOpen, OldPins, Write, Fetched;
    ag.Operand(Some(RTR(i)), false);
    ag.Operand(Some(RTR(j)), false);
    ag.Addl(JoinTR(i, j).m);
  }

  /** al_TII, al_TDD, al_TIN, al_TIA, al_TAI. */
  method AlMove(ag: SwitchGen, k: MoveKind)
    requires ag.Ready()
    modifies ag
    ensures unchanged(ag`isMem, ag`hasFooter, ag`noTAtEnd, ag`overrideIRQ)
    ensures ag.Ready() && ag.g == GMove(old(ag.g), k) && ag.ab.pc == old(ag.ab).pc && ag.ab.tr[3] == old(ag.ab).tr[3]
    ensures ag.Levels(old(ag.g).want, old(OldPins(ag.g)))
  {
    hide SwitchGen.Valid, IsOpen, OldPins, Write;
    ag.Addl(MoveOps(k)[0].m);
    if k != TIN {
      ag.Addl(MoveOps(k)[1].m);
    }
  }

  /** The cases that move a byte. */
  method MoveByteCases(ag: SwitchGen)
    requires ag.Ready() && ag.g.want == IDLE && ag.ab.tr[0].Half? && ag.ab.tr[1].Half?
    modifies ag
    ensures unchanged(ag`isMem, ag`hasFooter, ag`noTAtEnd, ag`overrideIRQ)
    ensures ag.Ready() && ag.g == GCopied(old(ag.g)) && ag.Levels(IDLE, WRITE)
    ensures ag.ab.pc == old(ag.ab).pc && ag.ab.tr[2] == old(ag.ab).tr[2] && ag.ab.tr[3] == old(ag.ab).tr[3]
  {
    hide SwitchGen.Valid, IsOpen, OldPins, Close, Ask, Load;
    ag.LoadAt(Some(RTR(4)), AddrMapped(Reg(RTR(0))), false);
    ag.AddCycle();
    ag.StoreAt(AddrMapped(Reg(RTR(1))), Reg(RTR(4)), false);
  }

  /** Cases 14 to 19 of a block move. */
  method BlockLoop(ag: SwitchGen, k: MoveKind)
    requires ag.Ready() && !ag.aim.certify && ag.g.want == IDLE && ag.ab.pc.Half?
    requires ag.ab.tr[0].Half? && ag.ab.tr[1].Half? && ag.ab.tr[2].Half? && ag.ab.tr[3].Byte?
    modifies ag
    ensures unchanged(ag`isMem, ag`hasFooter, ag`noTAtEnd, ag`overrideIRQ)
    ensures ag.Ready() && ag.g == GBody(old(ag.g), k) && ag.Levels(IDLE, IDLE) && ag.ab.pc.Half?
  {
    hide SwitchGen.Valid, AfterSkip, OldPins, Close, Ask, Load, GMove, GCopied;
    MoveByteCases(ag);
    AlMove(ag, k);
    ag.Addl(Toggle(RTR(3)));
    ag.AddCycle();
    ag.AddCycle();
    ag.Addl(Sum(RTR(2), Reg(RTR(2)), Num(-1), W16));
    ag.LoopBackSix();
    ag.AddCycle();
  }

  // ----- The remaining forms -----

  lemma NopShape()
    ensures Finish(Ask(FRESH, [ADDR_PC], READ),
      false, true, true) == Text(INop)
  {
    hide EndOps;
    assert Text(INop) == [C([ADDR_PC], READ), Ending([], true, true)];
    hide Text;
    assert [] + [ADDR_PC] == [ADDR_PC];
    Ends(Text(INop), Ask(FRESH, [ADDR_PC], READ), true, true);
  }

  lemma AluShape(f: AluOp, dt: Reg, mem: bool)
    requires !Splits(f)
    ensures Finish(GAl(Close(Ask(FRESH, [ADDR_PC], READ)), f, dt, Reg(dt), mem), true, true, true) == Text(IAlu(f, dt))
  {
    hide EndOps, Close, Ask, Write, Finish;
    ShortIs(Close(Ask(FRESH, [ADDR_PC], READ)), Just(Alu(f, dt, Reg(dt))), true, true);
  }

  lemma TransferShape(src: Reg, dst: Reg)
    ensures var g1 := Write(Close(Ask(FRESH, [ADDR_PC], READ)), [Just(Move(dst, Reg(src)))]);
      Finish(Write(g1, [Just(SetNZ(dst))]), true, true, true) == Text(ITransfer(src, dst))
  {
    hide EndOps;
    var ops := [Just(Move(dst, Reg(src))), Just(SetNZ(dst))];
    var code := ShortCode(ops, true, true);
    assert Text(ITransfer(src, dst)) == code;
    hide Text;
    Dummies(code);
    var g1 := Write(Write(Close(Ask(FRESH, [ADDR_PC], READ)), [ops[0]]), [ops[1]]);
    assert g1.pre == ops;
    Footed(code, g1, true, true);
  }

  lemma StackPointerShape()
    ensures var g1 := Write(Close(Ask(FRESH, [ADDR_PC], READ)), [Just(Move(RS, Reg(RX)))]);
      Finish(g1, true, true, true) == Text(IStackPointer)
  {
    hide EndOps, Close, Ask, Write, Finish;
    ShortIs(Close(Ask(FRESH, [ADDR_PC], READ)), Just(Move(RS, Reg(RX))), true, true);
  }

  lemma SwapShape(d1: Reg, d2: Reg)
    ensures var g1 := Write(Close(Close(Ask(FRESH, [ADDR_PC], READ))), [Just(Move(RTA, Reg(d1)))]);
      var g2 := Write(Write(g1, [Just(Move(d1, Reg(d2)))]), [Just(Move(d2, Reg(RTA)))]);
      Finish(g2, true, true, true) == Text(ISwap(d1, d2))
  {
    hide EndOps;
    var ops := [Just(Move(RTA, Reg(d1))), Just(Move(d1, Reg(d2))), Just(Move(d2, Reg(RTA)))];
    var code := Text(ISwap(d1, d2));
    assert code == [C([ADDR_PC], READ), C([], IDLE), Ending(ops, true, true)];
    hide Text;
    Dummies(code);
    var g1 := Close(Ask(FRESH, [ADDR_PC], READ));
    Closes(code, g1);
    var g2 := Write(Write(Write(Close(g1), [ops[0]]), [ops[1]]), [ops[2]]);
    assert g2.pre == ops;
    Footed(code, g2, true, true);
  }

  lemma ClearShape(t: Target)
    ensures var g1 := Close(Ask(FRESH, [ADDR_PC], READ));
      var g2 := Write(g1, [Just(if t.Register? then Move(t.g, Num(0)) else PutFlag(t.f, false))]);
      Finish(g2, true, t != Flag(FI), true) == Text(IClear(t))
  {
    hide EndOps, Close, Ask, Write, Finish;
    ShortIs(Close(Ask(FRESH, [ADDR_PC], READ)), Just(if t.Register? then Move(t.g, Num(0)) else PutFlag(t.f, false)),
      t != Flag(FI), true);
  }

  lemma SetShape(f: FlagName)
    ensures var g1 := if f == FI then Write(Ask(FRESH, [ADDR_PC], READ), [Just(PollIrqs)]) else Ask(FRESH, [ADDR_PC],
      READ);
      Finish(Write(Close(g1), [Just(PutFlag(f, true))]), true, f != FI, f != FT) == Text(ISet(f))
  {
    hide EndOps;
    var code := Text(ISet(f));
    var first := [ADDR_PC] + if f == FI then [Just(PollIrqs)] else [];
    assert code == [C(first, READ), Ending([Just(PutFlag(f, true))], f != FI, f != FT)];
    hide Text;
    var d := Ask(FRESH, [ADDR_PC], READ);
    var g1 := if f == FI then Write(d, [Just(PollIrqs)]) else d;
    assert g1.pre == first;
    Closes(code, g1);
    var g2 := Write(Close(g1), [Just(PutFlag(f, true))]);
    assert g2.pre == [Just(PutFlag(f, true))];
    Footed(code, g2, f != FI, f != FT);
  }

  lemma SpeedShape(div: nat)
    ensures var g1 := Write(Close(Ask(FRESH, [ADDR_PC], READ)), [Just(Speed(div))]);
      Finish(g1, false, true, true) == Text(ISpeed(div))
  {
    hide EndOps;
    var code := Text(ISpeed(div));
    assert code == [C([ADDR_PC], READ), C([Just(Speed(div))], IDLE), Ending([], true, true)];
    hide Text;
    Dummies(code);
    var g1 := Write(Close(Ask(FRESH, [ADDR_PC], READ)), [Just(Speed(div))]);
    assert g1.pre == [Just(Speed(div))];
    Ends(code, g1, true, true);
  }

  lemma StoreShape(addr: nat)
    ensures var g1 := Write(Close(Fetched(FRESH, Some(RTR(0)))), [Just(AddrFixed(addr))]);
      Finish(Ask(Write(g1, [Just(Out(Reg(RTR(0))))]), [], WRITE), false, true, true) == Text(IStore(addr))
  {
    hide EndOps, Fetched;
    var code := Text(IStore(addr));
    assert code == [C([ADDR_PC], READ), C([Take(RTR(0)), INC_PC], IDLE),
      C([Just(AddrFixed(addr)), Just(Out(Reg(RTR(0))))], WRITE),
                    Ending([], true, true)];
    hide Text;
    assert [] + [ADDR_PC] == [ADDR_PC];
    Fetches(code, FRESH, RTR(0));
    var g1 := Fetched(FRESH, Some(RTR(0)));
    Closes(code, g1);
    var g2 := Ask(Write(Write(Close(g1), [Just(AddrFixed(addr))]), [Just(Out(Reg(RTR(0))))]), [], WRITE);
    assert g2.pre == [Just(AddrFixed(addr)), Just(Out(Reg(RTR(0))))];
    Ends(code, g2, true, true);
  }

  lemma PushShape(v: Src)
    ensures Finish(Ask(Close(Ask(FRESH, [ADDR_PC], READ)), PushOps(v), WRITE), false, true, true) == Text(IPush(v))
  {
    hide EndOps;
    var code := Text(IPush(v));
    assert code == [C([ADDR_PC], READ), C(PushOps(v), WRITE), Ending([], true, true)];
    hide Text, PushOps;
    Dummies(code);
    assert [] + PushOps(v) == PushOps(v);
    Ends(code, Ask(Close(Ask(FRESH, [ADDR_PC], READ)), PushOps(v), WRITE), true, true);
  }

  lemma PullShape(dt: Reg)
    ensures var g1 := Write(GPull(Close(Close(Ask(FRESH, [ADDR_PC], READ))), Take(dt)), [Just(SetNZ(dt))]);
      Finish(g1, true, true, true) == Text(IPull(dt))
  {
    hide EndOps, GPush, GPull, Fetched, Load;
    var code := PullCode([Take(dt), Just(SetNZ(dt))], true);
    Dummies(code);
    var g1 := Close(Ask(FRESH, [ADDR_PC], READ));
    Closes(code, g1);
    assert [] + PULL_OPS == PULL_OPS;
    Pulls(code, Close(g1), Take(dt));
    var g2 := Write(GPull(Close(g1), Take(dt)), [Just(SetNZ(dt))]);
    assert g2.pre == [Take(dt), Just(SetNZ(dt))];
    Footed(code, g2, true, true);
  }

  lemma PullPShape()
    ensures var g1 := GPull(Close(Close(Ask(FRESH, [ADDR_PC], READ))), Just(LoadStatus));
      Finish(Write(g1, [Just(DropBrk)]), true, false, false) == Text(IPullP)
  {
    hide EndOps, GPull;
    var code := PullCode([Just(LoadStatus), Just(DropBrk)], false);
    assert Text(IPullP) == code;
    hide Text;
    Dummies(code);
    var g1 := Close(Ask(FRESH, [ADDR_PC], READ));
    Closes(code, g1);
    assert [] + PULL_OPS == PULL_OPS;
    Pulls(code, Close(g1), Just(LoadStatus));
    var g2 := Write(GPull(Close(g1), Just(LoadStatus)), [Just(DropBrk)]);
    assert g2.pre == [Just(LoadStatus), Just(DropBrk)];
    Footed(code, g2, false, false);
  }

  lemma WriteZeroShape(v: Src, inx: Option<Reg>)
    ensures var g1 := Close(Write(Fetched(FRESH, Some(RTA)), IndexOps(RTA, inx, W8)));
      Finish(Ask(g1, [ASK_TA, Just(Out(v))], WRITE), false, true, true) == Text(IWrite(Zp(inx), v))
  {
    hide EndOps, IndexOps, Fetched;
    var code, ix := WriteCode(Zp(inx), v), IndexOps(RTA, inx, W8);
    assert Text(IWrite(Zp(inx), v)) == code;
    hide Text;
    assert [] + [ADDR_PC] == [ADDR_PC];
    Fetches(code, FRESH, RTA);
    Closes(code, Write(Fetched(FRESH, Some(RTA)), ix));
    var g1 := Ask(Close(Write(Fetched(FRESH, Some(RTA)), ix)), [ASK_TA, Just(Out(v))], WRITE);
    assert g1.pre == [ASK_TA, Just(Out(v))];
    Ends(code, g1, true, true);
  }

  lemma WriteAbsoluteShape(v: Src, inx: Option<Reg>)
    ensures var g1 := Ask(GAbsolute(FRESH, inx), [ASK_MEM, Just(Out(v))], WRITE);
      Finish(g1, false, true, true) == Text(IWrite(Abso(inx), v))
  {
    hide EndOps, IndexOps, GAbsolute;
    var code, ix := WriteCode(Abso(inx), v), IndexOps(RTA, inx, W16);
    assert Text(IWrite(Abso(inx), v)) == code;
    hide Text;
    AbsoluteIs(inx);
    var g1 := GAbsolute(FRESH, inx);
    assert g1.cycles == code[..3];
    var g2 := Ask(g1, [ASK_MEM, Just(Out(v))], WRITE);
    Ends(code, g2, true, true);
  }

  lemma WriteIndirectShape(v: Src, inx: Option<Reg>)
    ensures var g1 := Close(Write(GPointer(GAddr(Zp(inx), FRESH)), [JOIN_PTR]));
      Finish(Ask(g1, [ASK_MEM, Just(Out(v))], WRITE), false, true, true) == Text(IWrite(Ind(inx), v))
  {
    hide EndOps, IndexOps, GAddr, GPointer;
    var code := WriteCode(Ind(inx), v);
    assert Text(IWrite(Ind(inx), v)) == code;
    hide Text;
    ZeroIs(inx);
    var g1 := GAddr(Zp(inx), FRESH);
    PointerIs(code, g1);
    var g2 := Write(GPointer(g1), [JOIN_PTR]);
    assert g2.pre == [Take(RTR(1)), JOIN_PTR];
    Closes(code, g2);
    var g3 := Ask(Close(g2), [ASK_MEM, Just(Out(v))], WRITE);
    assert g3.pre == [ASK_MEM, Just(Out(v))];
    Ends(code, g3, true, true);
  }

  lemma WriteIndirectYShape(v: Src)
    ensures var g1 := Close(Write(GPointer(GAddr(Zp(None), FRESH)), [JoinTR(0, 1)]));
      var g2 := Write(g1, [Just(Sum(RTA, Reg(RTR(0)), Reg(RY), W16))]);
      Finish(Ask(g2, [ASK_MEM, Just(Out(v))], WRITE), false, true, true) == Text(IWrite(IndY, v))
  {
    hide EndOps, GAddr, GPointer;
    var code, add := WriteCode(IndY, v), Just(Sum(RTA, Reg(RTR(0)), Reg(RY), W16));
    assert Text(IWrite(IndY, v)) == code;
    hide Text;
    ZeroIs(None);
    var g1 := GAddr(Zp(None), FRESH);
    assert g1.cycles == code[..2] && g1.pre + [ASK_TA] == [ASK_TA];
    PointerIs(code, g1);
    var g2 := Write(GPointer(g1), [JoinTR(0, 1)]);
    assert g2.pre == [Take(RTR(1)), JoinTR(0, 1)];
    Closes(code, g2);
    var g3 := Ask(Write(Close(g2), [add]), [ASK_MEM, Just(Out(v))], WRITE);
    assert g3.pre == [add, ASK_MEM, Just(Out(v))];
    Ends(code, g3, true, true);
  }

  lemma ModifyShape(m: Mode, f: AluOp)
    requires m.Zp? || m.Abso?
    ensures var g1 := Close(Load(GAddr(m, FRESH), AskOp(m).m, TakeOps(Some(RTR(0)))));
      var g2 := Write(g1, [Just(Alu(f, RTR(1), Reg(RTR(0))))]);
      Finish(Ask(g2, [AskOp(m), Just(Out(Reg(RTR(1))))], WRITE), false, true, true) == Text(IModify(m, f))
  {
    hide EndOps, GAddr, AddrCases;
    var code, op := ModifyCode(m, f), Just(Alu(f, RTR(1), Reg(RTR(0))));
    AddrShape(m, FRESH);
    var g1 := GAddr(m, FRESH);
    assert g1.cycles + [C(g1.pre + [AskOp(m)], READ)] == AddrCases(m, []);
    var g2 := Load(g1, AskOp(m).m, TakeOps(Some(RTR(0))));
    assert g2 == Gen(AddrCases(m, []), [Take(RTR(0))], Straight, IDLE);
    assert Follows(code, g2);
    Closes(code, g2);
    var g3 := Ask(Write(Close(g2), [op]), [AskOp(m), Just(Out(Reg(RTR(1))))], WRITE);
    assert g3.pre == [op, AskOp(m), Just(Out(Reg(RTR(1))))];
    Ends(code, g3, true, true);
  }

  lemma BitShape(k: Slot, on: bool)
    ensures var g1 := Close(Close(Load(GAddr(Zp(None), FRESH), ASK_TA.m, TakeOps(Some(RTR(0))))));
      var g2 := Write(g1, [Just(if on then SetBit(RTR(0), k) else ResetBit(RTR(0), k))]);
      Finish(Ask(g2, [ASK_TA, Just(Out(Reg(RTR(0))))], WRITE), false, true, true) == Text(IBit(k, on))
  {
    hide EndOps, GAddr, AddrCases;
    var code, op := BitCode(k, on), Just(if on then SetBit(RTR(0), k) else ResetBit(RTR(0), k));
    assert Text(IBit(k, on)) == code;
    hide Text;
    AddrShape(Zp(None), FRESH);
    var g1 := GAddr(Zp(None), FRESH);
    var g2 := Load(g1, ASK_TA.m, TakeOps(Some(RTR(0))));
    assert g2 == Gen(AddrCases(Zp(None), []), [Take(RTR(0))], Straight, IDLE);
    assert Follows(code, g2);
    Closes(code, g2);
    Closes(code, Close(g2));
    var g3 := Ask(Write(Close(Close(g2)), [op]), [ASK_TA, Just(Out(Reg(RTR(0))))], WRITE);
    assert g3.pre == [op, ASK_TA, Just(Out(Reg(RTR(0))))];
    Ends(code, g3, true, true);
  }

  lemma TestAbsoluteShape(inx: Option<Reg>)
    ensures var g1 := Fetched(Fetched(Fetched(FRESH, Some(RTR(0))), Some(RTA)), Some(RTR(1)));
      var g2 := Close(Close(Write(g1, [Just(Join(RTA, Reg(RTA), Reg(RTR(1))))])));
      var g3 := Close(Load(Write(g2, IndexOps(RTA, inx, W16)), ASK_MEM.m, TakeOps(Some(RTR(2)))));
      Finish(Write(g3, [Just(TestMask(Reg(RTR(0)), Reg(RTR(2))))]), true, true, true) == Text(ITest(Abso(inx)))
  {
    hide EndOps, IndexOps;
    var code, ix := TestCode(Abso(inx)), IndexOps(RTA, inx, W16);
    assert Text(ITest(Abso(inx))) == code;
    hide Text;
    var g1 := Fetched(FRESH, Some(RTR(0)));
    assert FRESH.pre + [ADDR_PC] == [ADDR_PC];
    Loads(code, FRESH, ADDR_PC.m, TakeOps(Some(RTR(0))));
    assert g1.pre + [ADDR_PC] == [Take(RTR(0)), INC_PC, ADDR_PC];
    Loads(code, g1, ADDR_PC.m, TakeOps(Some(RTA)));
    var g2 := Fetched(g1, Some(RTA));
    assert g2.pre + [ADDR_PC] == [Take(RTA), INC_PC, ADDR_PC];
    Loads(code, g2, ADDR_PC.m, TakeOps(Some(RTR(1))));
    var g3 := Write(Fetched(g2, Some(RTR(1))), [Just(Join(RTA, Reg(RTA), Reg(RTR(1))))]);
    assert g3.pre == [Take(RTR(1)), INC_PC, Just(Join(RTA, Reg(RTA), Reg(RTR(1))))];
    Closes(code, g3);
    Closes(code, Close(g3));
    var g4 := Write(Close(Close(g3)), ix);
    assert g4.pre == ix;
    Loads(code, g4, ASK_MEM.m, TakeOps(Some(RTR(2))));
    var g5 := Load(g4, ASK_MEM.m, TakeOps(Some(RTR(2))));
    Closes(code, g5);
    var g6 := Write(Close(g5), [Just(TestMask(Reg(RTR(0)), Reg(RTR(2))))]);
    assert g6.pre == [Just(TestMask(Reg(RTR(0)), Reg(RTR(2))))];
    Footed(code, g6, true, true);
  }

  lemma TestZeroShape(inx: Option<Reg>)
    ensures var g1 := Close(Close(Fetched(Fetched(FRESH, Some(RTR(0))), Some(RTR(1)))));
      var g2 := Write(g1, IndexOps(RTR(1), inx, W8));
      var g3 := Load(g2, AddrPage1(Reg(RTR(1))), TakeOps(Some(RTA)));
      Finish(Write(g3, [Just(TestMask(Reg(RTR(0)), Reg(RTA)))]), false, true, true) == Text(ITest(Zp(inx)))
  {
    hide EndOps, IndexOps, Fetched, Load;
    var code, ix := TestCode(Zp(inx)), IndexOps(RTR(1), inx, W8);
    assert Text(ITest(Zp(inx))) == code;
    hide Text;
    assert [] + [ADDR_PC] == [ADDR_PC];
    Fetches(code, FRESH, RTR(0));
    var g1 := Fetched(FRESH, Some(RTR(0)));
    assert g1.pre + [ADDR_PC] == [Take(RTR(0)), INC_PC, ADDR_PC];
    Fetches(code, g1, RTR(1));
    var g2 := Fetched(g1, Some(RTR(1)));
    Closes(code, g2);
    Closes(code, Close(g2));
    var g3 := Write(Close(Close(g2)), ix);
    assert g3.pre == ix;
    Loads(code, g3, AddrPage1(Reg(RTR(1))), TakeOps(Some(RTA)));
    var g4 := Write(Load(g3, AddrPage1(Reg(RTR(1))), TakeOps(Some(RTA))), [Just(TestMask(Reg(RTR(0)), Reg(RTA)))]);
    assert g4.pre == [Take(RTA), Just(TestMask(Reg(RTR(0)), Reg(RTA)))];
    Ends(code, g4, true, true);
  }

  lemma BranchShape(f: FlagName, on: bool)
    ensures var g1 := Write(Write(Fetched(FRESH, Some(RTA)), [BrEnd(FlagIs(f, !on))]), [TAKE_BRANCH]);
      var g2 := Write(Close(Close(Ask(g1, [ADDR_PC], READ))), [Just(Move(RPC, Reg(RTA)))]);
      Finish(g2, true, true, true) == Text(IBranch(Some((f, on))))
  {
    hide EndOps, GPush, GPull, Fetched, Load;
    var code := BranchCode(Some((f, on)));
    assert Text(IBranch(Some((f, on)))) == code;
    hide Text;
    assert [] + [ADDR_PC] == [ADDR_PC];
    Fetches(code, FRESH, RTA);
    var g1 := Ask(Write(Write(Fetched(FRESH, Some(RTA)), [BrEnd(FlagIs(f, !on))]), [TAKE_BRANCH]), [ADDR_PC], READ);
    assert g1.pre == [Take(RTA), INC_PC, BrEnd(FlagIs(f, !on)), TAKE_BRANCH, ADDR_PC];
    Closes(code, g1);
    Closes(code, Close(g1));
    var g2 := Write(Close(Close(g1)), [Just(Move(RPC, Reg(RTA)))]);
    assert g2.pre == [Just(Move(RPC, Reg(RTA)))];
    Footed(code, g2, true, true);
  }

  lemma BranchAlwaysShape()
    ensures var g1 := Close(Close(Write(Fetched(FRESH, Some(RTA)), [TAKE_BRANCH])));
      Finish(Write(g1, [Just(Move(RPC, Reg(RTA)))]), true, true, true) == Text(IBranch(None))
  {
    hide EndOps, Fetched;
    var code := BranchCode(None);
    assert Text(IBranch(None)) == code;
    hide Text;
    assert [] + [ADDR_PC] == [ADDR_PC];
    Fetches(code, FRESH, RTA);
    var g1 := Write(Fetched(FRESH, Some(RTA)), [TAKE_BRANCH]);
    assert g1.pre == [Take(RTA), INC_PC, TAKE_BRANCH];
    Closes(code, g1);
    Closes(code, Close(g1));
    var g2 := Write(Close(Close(g1)), [Just(Move(RPC, Reg(RTA)))]);
    assert g2.pre == [Just(Move(RPC, Reg(RTA)))];
    Footed(code, g2, true, true);
  }

  lemma BitBranchShape(k: Slot, on: bool)
    ensures var g1 := Close(Fetched(Close(Fetched(FRESH, Some(RTA))), Some(RTR(2))));
      var g2 := Write(Load(g1, ASK_TA.m, TakeOps(None)), [BrEnd(DataBit(k, !on))]);
      var g3 := Close(Write(g2, [Just(Sum(RPC, Reg(RPC), Signed(RTR(2)), W16))]));
      Finish(g3, false, true, true) == Text(IBranchBit(k, on))
  {
    hide EndOps, GPush, GPull, Fetched, Load;
    var code := BitBranchCode(k, on);
    assert Text(IBranchBit(k, on)) == code;
    hide Text;
    assert [] + [ADDR_PC] == [ADDR_PC];
    Fetches(code, FRESH, RTA);
    var g1 := Fetched(FRESH, Some(RTA));
    Closes(code, g1);
    Fetches(code, Close(g1), RTR(2));
    var g2 := Fetched(Close(g1), Some(RTR(2)));
    Closes(code, g2);
    assert [] + [ASK_TA] == [ASK_TA];
    Loads(code, Close(g2), ASK_TA.m, TakeOps(None));
    var g3 := Load(Close(g2), ASK_TA.m, TakeOps(None));
    var g4 := Write(Write(g3, [BrEnd(DataBit(k, !on))]), [Just(Sum(RPC, Reg(RPC), Signed(RTR(2)), W16))]);
    assert g4.pre == [BrEnd(DataBit(k, !on)), Just(Sum(RPC, Reg(RPC), Signed(RTR(2)), W16))];
    Closes(code, g4);
    Ends(code, Close(g4), true, true);
  }

  lemma JumpShape()
    ensures var g1 := Close(Write(Fetched(Fetched(FRESH, Some(RTA)), Some(RTR(0))), [JOIN_TA]));
      Finish(Write(g1, [Just(Move(RPC, Reg(RTA)))]), true, true, true) == Text(IJump)
  {
    hide EndOps, Fetched;
    var code := Text(IJump);
    assert code == [C([ADDR_PC], READ), C([Take(RTA), INC_PC, ADDR_PC], READ), C([Take(RTR(0)), INC_PC, JOIN_TA], IDLE),
       Ending([Just(Move(RPC, Reg(RTA)))], true, true)];
    hide Text;
    assert [] + [ADDR_PC] == [ADDR_PC];
    Fetches(code, FRESH, RTA);
    var g1 := Fetched(FRESH, Some(RTA));
    assert g1.pre + [ADDR_PC] == [Take(RTA), INC_PC, ADDR_PC];
    Fetches(code, g1, RTR(0));
    var g2 := Write(Fetched(g1, Some(RTR(0))), [JOIN_TA]);
    assert g2.pre == [Take(RTR(0)), INC_PC, JOIN_TA];
    Closes(code, g2);
    var g3 := Write(Close(g2), [Just(Move(RPC, Reg(RTA)))]);
    assert g3.pre == [Just(Move(RPC, Reg(RTA)))];
    Footed(code, g3, true, true);
  }

  lemma JumpIndirectShape(inx: Option<Reg>)
    ensures var g1 := Load(GAbsolute(FRESH, inx), ASK_MEM.m, TakeOps(Some(RPC)));
      var g2 := Write(g1, [Just(Sum(RTA, Reg(RTA), Num(1), W16))]);
      var g3 := Load(g2, ASK_MEM.m, TakeOps(Some(RTR(0))));
      Finish(Write(g3, [Just(Join(RPC, Reg(RPC), Reg(RTR(0))))]), false, true, true) == Text(IJumpIndirect(inx))
  {
    hide EndOps, IndexOps, GAbsolute;
    var code, ix := JumpIndirectCode(inx), IndexOps(RTA, inx, W16);
    assert Text(IJumpIndirect(inx)) == code;
    hide Text;
    AbsoluteIs(inx);
    var g1 := GAbsolute(FRESH, inx);
    assert g1.cycles == code[..3];
    Loads(code, g1, ASK_MEM.m, TakeOps(Some(RPC)));
    var g2 := Load(g1, ASK_MEM.m, TakeOps(Some(RPC)));
    hide Load;
    var g3 := Write(g2, [Just(Sum(RTA, Reg(RTA), Num(1), W16))]);
    assert g3.pre + [ASK_MEM] == [Take(RPC), Just(Sum(RTA, Reg(RTA), Num(1), W16)), ASK_MEM];
    Loads(code, g3, ASK_MEM.m, TakeOps(Some(RTR(0))));
    var g4 := Write(Load(g3, ASK_MEM.m, TakeOps(Some(RTR(0)))), [Just(Join(RPC, Reg(RPC), Reg(RTR(0))))]);
    assert g4.pre == [Take(RTR(0)), Just(Join(RPC, Reg(RPC), Reg(RTR(0))))];
    Ends(code, g4, true, true);
  }

  lemma BreakShape()
    ensures var g1 := Write(GPush16(Fetched(FRESH, None)), [Just(PutFlag(FT, false))]);
      var g2 := Write(GPush(g1, Status(true, true)), [Just(PutFlag(FD, false))]);
      var g3 := Write(g2, [Just(PutFlag(FI, true))]);
      var g4 := Load(g3, AddrMapped(Num(0xFFF6)), TakeOps(Some(RPC)));
      var g5 := Write(Load(g4, AddrMapped(Num(0xFFF7)), TakeOps(Some(RTA))), [JOIN_PC]);
      Finish(g5, false, true, true) == Text(IBreak)
  {
    hide EndOps, GPush, Load;
    var code := BreakCode();
    assert Text(IBreak) == code;
    hide Text;
    assert [] + [ADDR_PC] == [ADDR_PC];
    Loads(code, FRESH, ADDR_PC.m, TakeOps(None));
    var g1 := Fetched(FRESH, None);
    assert TakeOps(None) + [INC_PC] == [INC_PC];
    Pushes(code, g1, Hi(RPC));
    var g2 := GPush(g1, Hi(RPC));
    assert [] + PushOps(Lo(RPC)) == PushOps(Lo(RPC));
    Pushes(code, g2, Lo(RPC));
    var g3 := Write(GPush(g2, Lo(RPC)), [Just(PutFlag(FT, false))]);
    assert g3.pre == [Just(PutFlag(FT, false))];
    Pushes(code, g3, Status(true, true));
    var g4 := Write(Write(GPush(g3, Status(true, true)), [Just(PutFlag(FD, false))]), [Just(PutFlag(FI, true))]);
    assert g4.pre + [Just(AddrMapped(Num(0xFFF6)))] ==
      [Just(PutFlag(FD, false)), Just(PutFlag(FI, true)), Just(AddrMapped(Num(0xFFF6)))];
    Loads(code, g4, AddrMapped(Num(0xFFF6)), TakeOps(Some(RPC)));
    var g5 := Load(g4, AddrMapped(Num(0xFFF6)), TakeOps(Some(RPC)));
    assert g5.pre + [Just(AddrMapped(Num(0xFFF7)))] == [Take(RPC), Just(AddrMapped(Num(0xFFF7)))];
    Loads(code, g5, AddrMapped(Num(0xFFF7)), TakeOps(Some(RTA)));
    var g6 := Write(Load(g5, AddrMapped(Num(0xFFF7)), TakeOps(Some(RTA))), [JOIN_PC]);
    assert g6.pre == [Take(RTA), JOIN_PC];
    Ends(code, g6, true, true);
  }

  lemma ResetShape()
    ensures var g1 := Close(Write(Ask(Close(FRESH), [], IDLE), [Just(AddrResetStack), DEC_S]));
      var g2 := Close(Write(g1, [Just(AddrResetStack), DEC_S]));
      var g3 := Close(Write(g2, [Just(AddrResetStack), DEC_S]));
      var g4 := Write(Close(Write(g3, [Just(AddrResetStack), DEC_S])), [Just(PutFlag(FI, true))]);
      var g5 := Write(Write(g4, [Just(PutFlag(FD, false))]), [Just(PutFlag(FT, false))]);
      var g6 := Write(Write(g5, [Just(ResetMachine)]), [Just(AddrFixed(0x1FFE))]);
      var g7 := Write(Close(Ask(Write(g6, [Just(Move(RS, Num(0)))]), [], READ)), [Take(RPC)]);
      var g8 := Close(Close(Ask(Write(g7, [Just(AddrNext)]), [], READ)));
      Finish(Write(g8, [Just(Join(RPC, Reg(RPC), Data))]), true, true, true) == Text(IReset)
  {
    hide EndOps;
    Flatten<Op>();
    Flatten<Cycle>();
    var code := ResetCode();
    var g1 := Ask(Close(FRESH), [], IDLE);
    assert g1 == Gen([code[0]], [], Straight, IDLE);
    var g2 := Close(Write(g1, [Just(AddrResetStack), DEC_S]));
    assert g2 == Gen([code[0], STACK_DOWN], [], Straight, IDLE);
  }

  lemma ToBanksShape()
    ensures var g1 := Write(Close(Close(Fetched(FRESH, Some(RTA)))), [Just(StoreBanks)]);
      Finish(g1, false, true, true) == Text(IToBanks)
  {
    hide EndOps, Fetched;
    var code := Text(IToBanks);
    assert code == [C([ADDR_PC], READ), C([Take(RTA), INC_PC], IDLE), C([], IDLE), C([Just(StoreBanks)], IDLE),
      Ending([], true, true)];
    hide Text;
    assert [] + [ADDR_PC] == [ADDR_PC];
    Fetches(code, FRESH, RTA);
    var g1 := Fetched(FRESH, Some(RTA));
    Closes(code, g1);
    Closes(code, Close(g1));
    var g2 := Write(Close(Close(g1)), [Just(StoreBanks)]);
    assert g2.pre == [Just(StoreBanks)];
    Ends(code, g2, true, true);
  }

  lemma FromBanksShape()
    ensures var g1 := Write(Close(Close(Fetched(FRESH, Some(RTR(0))))), [Just(LoadBanks)]);
      Finish(g1, true, true, true) == Text(IFromBanks)
  {
    hide EndOps, Fetched;
    var code := Text(IFromBanks);
    assert code == [C([ADDR_PC], READ), C([Take(RTR(0)), INC_PC], IDLE), C([], IDLE),
      Ending([Just(LoadBanks)], true, true)];
    hide Text;
    assert [] + [ADDR_PC] == [ADDR_PC];
    Fetches(code, FRESH, RTR(0));
    var g1 := Fetched(FRESH, Some(RTR(0)));
    Closes(code, g1);
    Closes(code, Close(g1));
    var g2 := Write(Close(Close(g1)), [Just(LoadBanks)]);
    assert g2.pre == [Just(LoadBanks)];
    Footed(code, g2, true, true);
  }

  /** al_* from TR[0] into TR[1], as read-modify-write forms use them. */
  method Modify(ag: SwitchGen, f: AluOp)
    requires ag.Ready() && !Splits(f) && Stores(f) && ag.ab.tr[0].Byte?
    modifies ag
    ensures unchanged(ag`isMem, ag`hasFooter, ag`noTAtEnd, ag`overrideIRQ)
    ensures ag.Ready() && ag.g == Write(old(ag.g), [Just(Alu(f, RTR(1), Reg(RTR(0))))])
    ensures ag.ab == old(ag.ab).(tr := old(ag.ab).tr[1 := Byte]) && ag.Levels(old(ag.g).want, old(OldPins(ag.g)))
  {
    hide SwitchGen.Valid, IsOpen, OldPins;
    Al(ag, f, RTR(1), Reg(RTR(0)));
  }

  method Immediate(ag: SwitchGen, f: AluOp, dt: Reg) returns (r: seq<seq<Op>>)
    requires ag.Fresh() && ag.aim.certify && IsMain(dt)
    requires f.ADC? ==> !ag.isMem
    modifies ag
    ensures IsCertified(r, ag.aim.wraps, true, true)
    ensures r == Compile(Text(IRead(Imm, f, dt, old(ag.isMem))))
  {
    hide SwitchGen.Valid, IsOpen, OldPins, Compile, IsCertified, Finish, Write, Close, Ask, Load, Fetched, Text,
      GPointer, GAbsolute;
    ag.Operand(Some(RTA), true);
    ag.Cleanup();
    r := ReadTail(ag, Imm, f, dt);
  }

  method ZeroPageRead(ag: SwitchGen, f: AluOp, dt: Reg, inx: Option<Reg>) returns (r: seq<seq<Op>>)
    requires ag.Fresh() && ag.aim.certify && IsMain(dt) && IsIndex(inx)
    requires f.ADC? ==> !ag.isMem
    modifies ag
    ensures IsCertified(r, ag.aim.wraps, true, true)
    ensures r == Compile(Text(IRead(Zp(inx), f, dt, old(ag.isMem))))
  {
    hide SwitchGen.Valid, IsOpen, OldPins, Compile, IsCertified, Finish, Write, Close, Ask, Load, Fetched, Text,
      GPointer, GAbsolute, GAddr;
    ZeroPageAddress(ag, inx);
    ag.LoadAt(Some(RTR(0)), ASK_TA.m, true);
    ag.Cleanup();
    r := ReadTail(ag, Zp(inx), f, dt);
  }

  method AbsoluteRead(ag: SwitchGen, f: AluOp, dt: Reg, inx: Option<Reg>) returns (r: seq<seq<Op>>)
    requires ag.Fresh() && ag.aim.certify && IsMain(dt) && IsIndex(inx)
    requires f.ADC? ==> !ag.isMem
    modifies ag
    ensures IsCertified(r, ag.aim.wraps, true, true)
    ensures r == Compile(Text(IRead(Abso(inx), f, dt, old(ag.isMem))))
  {
    hide SwitchGen.Valid, IsOpen, OldPins, Compile, IsCertified, Finish, Write, Close, Ask, Load, Fetched, Text,
      GPointer, GAbsolute;
    AbsoluteAddress(ag, inx);
    ag.LoadAt(Some(RTR(0)), ASK_MEM.m, true);
    ag.Cleanup();
    r := ReadTail(ag, Abso(inx), f, dt);
  }

  method IndirectRead(ag: SwitchGen, f: AluOp, dt: Reg, inx: Option<Reg>) returns (r: seq<seq<Op>>)
    requires ag.Fresh() && ag.aim.certify && IsMain(dt) && IsIndex(inx)
    requires f.ADC? ==> !ag.isMem
    modifies ag
    ensures IsCertified(r, ag.aim.wraps, true, true)
    ensures r == Compile(Text(IRead(Ind(inx), f, dt, old(ag.isMem))))
  {
    hide SwitchGen.Valid, IsOpen, OldPins, Compile, IsCertified, Finish, Write, Close, Ask, Load, Fetched, Text,
      GPointer, GAbsolute, GAddr;
    IndirectAddress(ag, inx);
    ag.LoadAt(Some(RTR(0)), ASK_MEM.m, true);
    ag.Cleanup();
    TakeTR0(ag);
    r := ReadTail(ag, Ind(inx), f, dt);
  }

  method IndirectYRead(ag: SwitchGen, f: AluOp, dt: Reg) returns (r: seq<seq<Op>>)
    requires ag.Fresh() && ag.aim.certify && IsMain(dt)
    requires f.ADC? ==> !ag.isMem
    modifies ag
    ensures IsCertified(r, ag.aim.wraps, true, true)
    ensures r == Compile(Text(IRead(IndY, f, dt, old(ag.isMem))))
  {
    hide SwitchGen.Valid, IsOpen, OldPins, Compile, IsCertified, Finish, Write, Close, Ask, Load, Fetched, Text,
      GPointer, GAbsolute, GAddr;
    IndirectYAddress(ag);
    ag.LoadAt(Some(RTR(2)), ASK_MEM.m, true);
    ag.Cleanup();
    r := ReadTail(ag, IndY, f, dt);
  }

  method ImmediateMemory(ag: SwitchGen, f: AluOp) returns (r: seq<seq<Op>>)
    requires ag.Fresh() && ag.aim.certify && TForm(f)
    modifies ag
    ensures IsCertified(r, ag.aim.wraps, true, true)
    ensures r == Compile(Text(IMem(Imm, f)))
  {
    hide SwitchGen.Valid, IsOpen, OldPins, Compile, IsCertified, Finish, Write, Close, Ask, Load, Fetched, Text,
      GPointer, GAbsolute;
    ag.isMem := true;
    ag.Addl(SAVE_A.m);
    ag.Operand(Some(RTA), false);
    ag.LoadAt(Some(RA), ASK_X.m, false);
    r := MemTail(ag, Imm, f);
  }

  method ZeroPageReadMemory(ag: SwitchGen, f: AluOp, inx: Option<Reg>) returns (r: seq<seq<Op>>)
    requires ag.Fresh() && ag.aim.certify && TForm(f) && IsIndex(inx)
    modifies ag
    ensures IsCertified(r, ag.aim.wraps, true, true)
    ensures r == Compile(Text(IMem(Zp(inx), f)))
  {
    hide SwitchGen.Valid, IsOpen, OldPins, Compile, IsCertified, Finish, Write, Close, Ask, Load, Fetched, Text,
      GPointer, GAbsolute, GAddr;
    ag.isMem := true;
    ag.Addl(SAVE_A.m);
    ZeroPageAddress(ag, inx);
    ag.LoadAt(Some(RA), ASK_TA.m, false);
    ag.LoadAt(Some(RTR(0)), ASK_X.m, false);
    r := MemTail(ag, Zp(inx), f);
  }

  method AbsoluteReadMemory(ag: SwitchGen, f: AluOp, inx: Option<Reg>) returns (r: seq<seq<Op>>)
    requires ag.Fresh() && ag.aim.certify && TForm(f) && IsIndex(inx)
    modifies ag
    ensures IsCertified(r, ag.aim.wraps, true, true)
    ensures r == Compile(Text(IMem(Abso(inx), f)))
  {
    hide SwitchGen.Valid, IsOpen, OldPins, Compile, IsCertified, Finish, Write, Close, Ask, Load, Fetched, Text,
      GPointer, GAbsolute;
    ag.isMem := true;
    ag.Addl(SAVE_A.m);
    AbsoluteAddress(ag, inx);
    ag.LoadAt(Some(RTR(0)), ASK_MEM.m, false);
    ag.LoadAt(Some(RA), ASK_X.m, false);
    r := MemTail(ag, Abso(inx), f);
  }

  method IndirectReadMemory(ag: SwitchGen, f: AluOp, inx: Option<Reg>) returns (r: seq<seq<Op>>)
    requires ag.Fresh() && ag.aim.certify && TForm(f) && IsIndex(inx)
    modifies ag
    ensures IsCertified(r, ag.aim.wraps, true, true)
    ensures r == Compile(Text(IMem(Ind(inx), f)))
  {
    hide SwitchGen.Valid, IsOpen, OldPins, Compile, IsCertified, Finish, Write, Close, Ask, Load, Fetched, Text,
      GPointer, GAbsolute, GAddr;
    ag.isMem := true;
    ag.Addl(SAVE_A.m);
    IndirectAddress(ag, inx);
    ag.LoadAt(Some(RTR(0)), ASK_MEM.m, false);
    ag.LoadAt(Some(RA), ASK_X.m, false);
    r := MemTail(ag, Ind(inx), f);
  }

  method IndirectYReadMemory(ag: SwitchGen, f: AluOp) returns (r: seq<seq<Op>>)
    requires ag.Fresh() && ag.aim.certify && TForm(f)
    modifies ag
    ensures IsCertified(r, ag.aim.wraps, true, true)
    ensures r == Compile(Text(IMem(IndY, f)))
  {
    hide SwitchGen.Valid, IsOpen, OldPins, Compile, IsCertified, Finish, Write, Close, Ask, Load, Fetched, Text,
      GPointer, GAbsolute, GAddr;
    ag.isMem := true;
    ag.Addl(SAVE_A.m);
    IndirectYAddress(ag);
    ag.LoadAt(Some(RTR(3)), ASK_MEM.m, false);
    ag.LoadAt(Some(RA), ASK_X.m, false);
    r := MemTail(ag, IndY, f);
  }

  method Break(ag: SwitchGen) returns (r: seq<seq<Op>>)
    requires ag.Fresh() && ag.aim.certify
    modifies ag
    ensures IsCertified(r, ag.aim.wraps, true, true)
    ensures r == Compile(Text(IBreak))
  {
    hide SwitchGen.Valid, IsOpen, OldPins, Compile, IsCertified, Finish, Write, Close, Ask, Load, Fetched, Text;
    ag.Operand(None, false);
    PushPC(ag);
    Plain(ag, PutFlag(FT, false));
    ag.Push(Status(true, true), false);
    Plain(ag, PutFlag(FD, false));
    Plain(ag, PutFlag(FI, true));
    ag.LoadAt(Some(RPC), AddrMapped(Num(0xFFF6)), false);
    ag.LoadAt(Some(RTA), AddrMapped(Num(0xFFF7)), false);
    JoinPC(ag, Reg(RTA));
    BreakShape();
    r := ag.Finished();
  }

  method StoreImplied(ag: SwitchGen, addr: nat) returns (r: seq<seq<Op>>)
    requires ag.Fresh() && ag.aim.certify && addr < 0x200000
    modifies ag
    ensures IsCertified(r, ag.aim.wraps, true, true)
    ensures r == Compile(Text(IStore(addr)))
  {
    hide SwitchGen.Valid, IsOpen, OldPins, Compile, IsCertified, Finish, Write, Close, Ask, Load, Fetched, Text;
    ag.Operand(Some(RTR(0)), false);
    ag.AddCycle();
    Plain(ag, AddrFixed(addr));
    ag.Addl(Out(Reg(RTR(0))));
    ag.RW(false, true);
    StoreShape(addr);
    r := ag.Finished();
  }

  method Clear(ag: SwitchGen, dt: Target) returns (r: seq<seq<Op>>)
    requires ag.Fresh() && ag.aim.certify && (dt.Register? ==> IsMain(dt.g))
    modifies ag
    ensures IsCertified(r, ag.aim.wraps, dt != Flag(FI), true)
    ensures r == Compile(Text(IClear(dt)))
  {
    hide SwitchGen.Valid, IsOpen, OldPins, Compile, IsCertified, Finish, Write, Close, Ask, Load, Fetched, Text;
    ag.DummyRead(true);
    if dt == Flag(FI) {
      ag.overrideIRQ := true;
    }
    ag.Cleanup();
    match dt {
      case Register(g) => PutMain(ag, g, Num(0));
      case Flag(f) => Plain(ag, PutFlag(f, false));
    }
    ClearShape(dt);
    r := ag.Finished();
  }

  method SetMemoryBit(ag: SwitchGen, k: Slot) returns (r: seq<seq<Op>>)
    requires ag.Fresh() && ag.aim.certify
    modifies ag
    ensures IsCertified(r, ag.aim.wraps, true, true)
    ensures r == Compile(Text(IBit(k, true)))
  {
    hide SwitchGen.Valid, IsOpen, OldPins, Compile, IsCertified, Finish, Write, Close, Ask, Load, Fetched, Text;
    ZeroPageAddress(ag, None);
    ag.LoadAt(Some(RTR(0)), ASK_TA.m, false);
    ag.AddCycle();
    ag.AddCycle();
    ag.Addl(SetBit(RTR(0), k));
    ag.StoreAt(ASK_TA.m, Reg(RTR(0)), true);
    BitShape(k, true);
    r := ag.Finished();
  }

  method ResetMemoryBit(ag: SwitchGen, k: Slot) returns (r: seq<seq<Op>>)
    requires ag.Fresh() && ag.aim.certify
    modifies ag
    ensures IsCertified(r, ag.aim.wraps, true, true)
    ensures r == Compile(Text(IBit(k, false)))
  {
    hide SwitchGen.Valid, IsOpen, OldPins, Compile, IsCertified, Finish, Write, Close, Ask, Load, Fetched, Text;
    ZeroPageAddress(ag, None);
    ag.LoadAt(Some(RTR(0)), ASK_TA.m, false);
    ag.AddCycle();
    ag.AddCycle();
    ag.Addl(ResetBit(RTR(0), k));
    ag.StoreAt(ASK_TA.m, Reg(RTR(0)), true);
    BitShape(k, false);
    r := ag.Finished();
  }

  method Transfer(ag: SwitchGen, src: Reg, tgt: Reg) returns (r: seq<seq<Op>>)
    requires ag.Fresh() && ag.aim.certify && (IsMain(src) || src == RS) && IsMain(tgt)
    modifies ag
    ensures IsCertified(r, ag.aim.wraps, true, true)
    ensures r == Compile(Text(ITransfer(src, tgt)))
  {
    hide SwitchGen.Valid, IsOpen, OldPins, Compile, IsCertified, Finish, Write, Close, Ask, Load, Fetched, Text;
    ag.DummyRead(true);
    ag.Cleanup();
    PutMain(ag, tgt, Reg(src));
    Plain(ag, SetNZ(tgt));
    TransferShape(src, tgt);
    r := ag.Finished();
  }

  method TransferXS(ag: SwitchGen) returns (r: seq<seq<Op>>)
    requires ag.Fresh() && ag.aim.certify
    modifies ag
    ensures IsCertified(r, ag.aim.wraps, true, true)
    ensures r == Compile(Text(IStackPointer))
  {
    hide SwitchGen.Valid, IsOpen, OldPins, Compile, IsCertified, Finish, Write, Close, Ask, Load, Fetched, Text;
    ag.DummyRead(true);
    ag.Cleanup();
    PutMain(ag, RS, Reg(RX));
    StackPointerShape();
    r := ag.Finished();
  }

  method JumpIndirect(ag: SwitchGen, inx: Option<Reg>) returns (r: seq<seq<Op>>)
    requires ag.Fresh() && ag.aim.certify && IsIndex(inx)
    modifies ag
    ensures IsCertified(r, ag.aim.wraps, true, true)
    ensures r == Compile(Text(IJumpIndirect(inx)))
  {
    hide SwitchGen.Valid, IsOpen, OldPins, Compile, IsCertified, Finish, Write, Close, Ask, Load, Fetched, Text;
    AbsoluteAddress(ag, inx);
    ag.LoadAt(Some(RPC), ASK_MEM.m, false);
    SumTA(ag, Reg(RTA), Num(1), W16);
    ag.LoadAt(Some(RTR(0)), ASK_MEM.m, false);
    JoinPC(ag, Reg(RTR(0)));
    JumpIndirectShape(inx);
    r := ag.Finished();
  }

  method Pull(ag: SwitchGen, dt: Reg) returns (r: seq<seq<Op>>)
    requires ag.Fresh() && ag.aim.certify && IsMain(dt)
    modifies ag
    ensures IsCertified(r, ag.aim.wraps, true, true)
    ensures r == Compile(Text(IPull(dt)))
  {
    hide SwitchGen.Valid, IsOpen, OldPins, Compile, IsCertified, Finish, Write, Close, Ask, Load, Fetched, Text;
    ag.DummyRead(false);
    ag.AddCycle();
    ag.Pull(Move(dt, Data), true);
    Plain(ag, SetNZ(dt));
    PullShape(dt);
    r := ag.Finished();
  }

  method Push(ag: SwitchGen, dt: Src) returns (r: seq<seq<Op>>)
    requires ag.Fresh() && ag.aim.certify && SizeOf(AT_BOUNDARY, dt) == Some(Byte)
    modifies ag
    ensures IsCertified(r, ag.aim.wraps, true, true)
    ensures r == Compile(Text(IPush(dt)))
  {
    hide SwitchGen.Valid, IsOpen, OldPins, Compile, IsCertified, Finish, Write, Close, Ask, Load, Fetched, Text;
    ag.DummyRead(false);
    ag.Push(dt, true);
    PushShape(dt);
    r := ag.Finished();
  }

  method AbsoluteWrite(ag: SwitchGen, dt: Src, inx: Option<Reg>) returns (r: seq<seq<Op>>)
    requires ag.Fresh() && ag.aim.certify && IsStored(dt) && IsIndex(inx)
    modifies ag
    ensures IsCertified(r, ag.aim.wraps, true, true)
    ensures r == Compile(Text(IWrite(Abso(inx), dt)))
  {
    hide SwitchGen.Valid, IsOpen, OldPins, Compile, IsCertified, Finish, Write, Close, Ask, Load, Fetched, Text;
    AbsoluteAddress(ag, inx);
    ag.StoreAt(ASK_MEM.m, dt, true);
    WriteAbsoluteShape(dt, inx);
    r := ag.Finished();
  }

  method AbsoluteModify(ag: SwitchGen, f: AluOp, inx: Option<Reg>) returns (r: seq<seq<Op>>)
    requires ag.Fresh() && ag.aim.certify && !Splits(f) && Stores(f) && IsIndex(inx)
    modifies ag
    ensures IsCertified(r, ag.aim.wraps, true, true)
    ensures r == Compile(Text(IModify(Abso(inx), f)))
  {
    hide SwitchGen.Valid, IsOpen, OldPins, Compile, IsCertified, Finish, Write, Close, Ask, Load, Fetched, Text;
    AbsoluteAddress(ag, inx);
    ag.LoadAt(Some(RTR(0)), ASK_MEM.m, false);
    ag.AddCycle();
    Modify(ag, f);
    ag.StoreAt(ASK_MEM.m, Reg(RTR(1)), true);
    ModifyShape(Abso(inx), f);
    r := ag.Finished();
  }

  method Implied(ag: SwitchGen, f: AluOp, dt: Reg) returns (r: seq<seq<Op>>)
    requires ag.Fresh() && ag.aim.certify && !Splits(f) && IsMain(dt)
    modifies ag
    ensures IsCertified(r, ag.aim.wraps, true, true)
    ensures r == Compile(Text(IAlu(f, dt)))
  {
    hide SwitchGen.Valid, IsOpen, OldPins, Compile, IsCertified, Finish, Write, Close, Ask, Load, Fetched, Text;
    ag.DummyRead(true);
    ag.Cleanup();
    Al(ag, f, dt, Reg(dt));
    AluShape(f, dt, ag.isMem);
    r := ag.Finished();
  }

  method CallAbsolute(ag: SwitchGen) returns (r: seq<seq<Op>>)
    requires ag.Fresh() && ag.aim.certify
    modifies ag
    ensures IsCertified(r, ag.aim.wraps, true, true)
    ensures r == Compile(Text(ICall))
  {
    hide SwitchGen.Valid, IsOpen, OldPins, Compile, IsCertified, Finish, Write, Close, Ask, Load, Fetched, Text;
    ag.Operand(Some(RTA), false);
    ag.AddCycle();
    PushPC(ag);
    ag.Operand(Some(RTR(0)), false);
    JoinTA(ag, RTA, RTR(0));
    ag.Addl(Move(RPC, Reg(RTA)));
    CallShape();
    r := ag.Finished();
  }

  /** S_RESET. */
  method Reset(ag: SwitchGen) returns (r: seq<seq<Op>>)
    requires ag.Fresh() && !ag.aim.certify
    modifies ag
    ensures r == Compile(Text(IReset))
  {
    hide SwitchGen.Valid, IsOpen, OldPins, Compile, IsCertified, Finish, Write, Close, Ask, Load, Fetched, Text;
    ag.AddCycle();
    ag.RW(false, false);
    ag.AddrToSThenDec();
    ag.AddCycle();
    ag.AddrToSThenDec();
    ag.AddCycle();
    ag.AddrToSThenDec();
    ag.AddCycle();
    ag.AddrToSThenDec();
    ag.AddCycle();
    Plain(ag, PutFlag(FI, true));
    Plain(ag, PutFlag(FD, false));
    Plain(ag, PutFlag(FT, false));
    Plain(ag, ResetMachine);
    Plain(ag, AddrFixed(0x1FFE));
    PutMain(ag, RS, Num(0));
    ag.RW(true, false);
    ag.AddCycle();
    ag.Addl(Move(RPC, Data));
    Plain(ag, AddrNext);
    ag.RW(true, false);
    ag.AddCycle();
    ag.Cleanup();
    JoinPC(ag, Data);
    ResetShape();
    r := ag.Finished();
  }

  /** S_IRQ. */
  method Interrupt(ag: SwitchGen, vector: int) returns (r: seq<seq<Op>>)
    requires ag.Fresh() && ag.aim.certify && 256 <= vector < 65535
    modifies ag
    ensures IsCertified(r, ag.aim.wraps, true, true)
    ensures r == Compile(Text(IInterrupt(vector)))
  {
    hide SwitchGen.Valid, IsOpen, OldPins, Compile, IsCertified, Finish, Write, Close, Ask, Load, Fetched, Text;
    ag.DummyRead(false);
    ag.DummyRead(false);
    ag.Addl(Sum(RPC, Reg(RPC), Num(-1), W16));
    PushPC(ag);
    ag.Push(Status(false, true), false);
    Plain(ag, PutFlag(FI, true));
    Plain(ag, PutFlag(FD, false));
    Plain(ag, PutFlag(FT, false));
    ag.Addl(Move(RTA, Num(vector)));
    ag.LoadAt(Some(RPC), ASK_MEM.m, false);
    SumTA(ag, Reg(RTA), Num(1), W16);
    ag.LoadAt(Some(RTR(0)), ASK_MEM.m, true);
    ag.Cleanup();
    JoinPC(ag, Data);
    InterruptShape(vector);
    r := ag.Finished();
  }

  /** BranchIfBitSet and BranchIfBitReset: the branch is taken when the bit is `on`. */
  method BranchIfBit(ag: SwitchGen, k: Slot, on: bool) returns (r: seq<seq<Op>>)
    requires ag.Fresh() && ag.aim.certify
    modifies ag
    ensures IsCertified(r, ag.aim.wraps, true, true)
    ensures r == Compile(Text(IBranchBit(k, on)))
  {
    hide SwitchGen.Valid, IsOpen, OldPins, Compile, IsCertified, Finish, Write, Close, Ask, Load, Fetched, Text;
    ag.Operand(Some(RTA), false);
    ag.AddCycle();
    ag.Operand(Some(RTR(2)), false);
    ag.AddCycle();
    ag.LoadAt(None, ASK_TA.m, false);
    ag.BrEndIf(DataBit(k, !on));
    ag.Addl(Sum(RPC, Reg(RPC), Signed(RTR(2)), W16));
    ag.AddCycle();
    BitBranchShape(k, on);
    r := ag.Finished();
  }

  method IndirectYWrite(ag: SwitchGen, dt: Src) returns (r: seq<seq<Op>>)
    requires ag.Fresh() && ag.aim.certify && IsStored(dt)
    modifies ag
    ensures IsCertified(r, ag.aim.wraps, true, true)
    ensures r == Compile(Text(IWrite(IndY, dt)))
  {
    hide SwitchGen.Valid, IsOpen, OldPins, Compile, IsCertified, Finish, Write, Close, Ask, Load, Fetched, Text;
    ZeroPageAddress(ag, None);
    PointerFetch(ag);
    ag.Addl(Join(RTR(0), Reg(RTR(0)), Reg(RTR(1))));
    ag.AddCycle();
    SumTA(ag, Reg(RTR(0)), Reg(RY), W16);
    ag.StoreAt(ASK_MEM.m, dt, true);
    WriteIndirectYShape(dt);
    r := ag.Finished();
  }

  method IndirectWrite(ag: SwitchGen, dt: Src, inx: Option<Reg>) returns (r: seq<seq<Op>>)
    requires ag.Fresh() && ag.aim.certify && IsStored(dt) && IsIndex(inx)
    modifies ag
    ensures IsCertified(r, ag.aim.wraps, true, true)
    ensures r == Compile(Text(IWrite(Ind(inx), dt)))
  {
    hide SwitchGen.Valid, IsOpen, OldPins, Compile, IsCertified, Finish, Write, Close, Ask, Load, Fetched, Text;
    ZeroPageAddress(ag, inx);
    PointerFetch(ag);
    JoinTA(ag, RTR(0), RTR(1));
    ag.AddCycle();
    ag.StoreAt(ASK_MEM.m, dt, true);
    WriteIndirectShape(dt, inx);
    r := ag.Finished();
  }

  method TestAbsolute(ag: SwitchGen, inx: Option<Reg>) returns (r: seq<seq<Op>>)
    requires ag.Fresh() && ag.aim.certify && IsIndex(inx)
    modifies ag
    ensures IsCertified(r, ag.aim.wraps, true, true)
    ensures r == Compile(Text(ITest(Abso(inx))))
  {
    hide SwitchGen.Valid, IsOpen, OldPins, Compile, IsCertified, Finish, Write, Close, Ask, Load, Fetched, Text;
    ag.Operand(Some(RTR(0)), false);
    ag.Operand(Some(RTA), false);
    ag.Operand(Some(RTR(1)), false);
    JoinTA(ag, RTA, RTR(1));
    ag.AddCycle();
    ag.AddCycle();
    AddIndex(ag, RTA, inx, W16);
    ag.LoadAt(Some(RTR(2)), ASK_MEM.m, false);
    ag.Cleanup();
    ag.Addl(TestMask(Reg(RTR(0)), Reg(RTR(2))));
    TestAbsoluteShape(inx);
    r := ag.Finished();
  }

  method TestZeroPage(ag: SwitchGen, inx: Option<Reg>) returns (r: seq<seq<Op>>)
    requires ag.Fresh() && ag.aim.certify && IsIndex(inx)
    modifies ag
    ensures IsCertified(r, ag.aim.wraps, true, true)
    ensures r == Compile(Text(ITest(Zp(inx))))
  {
    hide SwitchGen.Valid, IsOpen, OldPins, Compile, IsCertified, Finish, Write, Close, Ask, Load, Fetched, Text;
    ag.Operand(Some(RTR(0)), false);
    ag.Operand(Some(RTR(1)), false);
    ag.AddCycle();
    ag.AddCycle();
    AddIndex(ag, RTR(1), inx, W8);
    ag.LoadAt(Some(RTA), AddrPage1(Reg(RTR(1))), false);
    ag.Addl(TestMask(Reg(RTR(0)), Reg(RTA)));
    TestZeroShape(inx);
    r := ag.Finished();
  }

  /** Taken when the named flag has the named value; `None` is BRA. */
  method Branch(ag: SwitchGen, taken: Option<(FlagName, bool)>) returns (r: seq<seq<Op>>)
    requires ag.Fresh() && ag.aim.certify
    modifies ag
    ensures IsCertified(r, ag.aim.wraps, true, true)
    ensures r == Compile(Text(IBranch(taken)))
  {
    hide SwitchGen.Valid, IsOpen, OldPins, Compile, IsCertified, Finish, Write, Close, Ask, Load, Fetched, Text;
    ag.Operand(Some(RTA), false);
    if taken.Some? {
      ag.BrEndIf(FlagIs(taken.value.0, !taken.value.1));
    }
    SumTA(ag, Reg(RPC), SignedData, W16);
    if taken.Some? {
      ag.DummyRead(true);
    }
    ag.AddCycle();
    ag.Cleanup();
    ag.Addl(Move(RPC, Reg(RTA)));
    if taken.Some? {
      BranchShape(taken.value.0, taken.value.1);
    } else {
      BranchAlwaysShape();
    }
    r := ag.Finished();
  }

  method Nop(ag: SwitchGen) returns (r: seq<seq<Op>>)
    requires ag.Fresh() && ag.aim.certify
    modifies ag
    ensures IsCertified(r, ag.aim.wraps, true, true)
    ensures r == Compile(Text(INop))
  {
    hide SwitchGen.Valid, IsOpen, OldPins, Compile, IsCertified, Finish, Write, Close, Ask, Load, Fetched, Text;
    ag.DummyRead(true);
    NopShape();
    r := ag.Finished();
  }

  method PullP(ag: SwitchGen) returns (r: seq<seq<Op>>)
    requires ag.Fresh() && ag.aim.certify
    modifies ag
    ensures IsCertified(r, ag.aim.wraps, false, false)
    ensures r == Compile(Text(IPullP))
  {
    hide SwitchGen.Valid, IsOpen, OldPins, Compile, IsCertified, Finish, Write, Close, Ask, Load, Fetched, Text;
    ag.DummyRead(false);
    ag.overrideIRQ := true;
    ag.AddCycle();
    ag.Pull(LoadStatus, true);
    Plain(ag, DropBrk);
    ag.noTAtEnd := true;
    PullPShape();
    r := ag.Finished();
  }

  method ZeroPageModify(ag: SwitchGen, f: AluOp, inx: Option<Reg>) returns (r: seq<seq<Op>>)
    requires ag.Fresh() && ag.aim.certify && !Splits(f) && Stores(f) && IsIndex(inx)
    modifies ag
    ensures IsCertified(r, ag.aim.wraps, true, true)
    ensures r == Compile(Text(IModify(Zp(inx), f)))
  {
    hide SwitchGen.Valid, IsOpen, OldPins, Compile, IsCertified, Finish, Write, Close, Ask, Load, Fetched, Text;
    ZeroPageAddress(ag, inx);
    ag.LoadAt(Some(RTR(0)), ASK_TA.m, false);
    ag.AddCycle();
    Modify(ag, f);
    ag.StoreAt(ASK_TA.m, Reg(RTR(1)), true);
    ModifyShape(Zp(inx), f);
    r := ag.Finished();
  }

  method Swap(ag: SwitchGen, d1: Reg, d2: Reg) returns (r: seq<seq<Op>>)
    requires ag.Fresh() && ag.aim.certify && IsMain(d1) && IsMain(d2)
    modifies ag
    ensures IsCertified(r, ag.aim.wraps, true, true)
    ensures r == Compile(Text(ISwap(d1, d2)))
  {
    hide SwitchGen.Valid, IsOpen, OldPins, Compile, IsCertified, Finish, Write, Close, Ask, Load, Fetched, Text;
    ag.DummyRead(false);
    ag.Cleanup();
    ag.Addl(Move(RTA, Reg(d1)));
    PutMain(ag, d1, Reg(d2));
    PutMain(ag, d2, Reg(RTA));
    SwapShape(d1, d2);
    r := ag.Finished();
  }

  method SetTo1(ag: SwitchGen, f: FlagName) returns (r: seq<seq<Op>>)
    requires ag.Fresh() && ag.aim.certify
    modifies ag
    ensures IsCertified(r, ag.aim.wraps, f != FI, f != FT)
    ensures r == Compile(Text(ISet(f)))
  {
    hide SwitchGen.Valid, IsOpen, OldPins, Compile, IsCertified, Finish, Write, Close, Ask, Load, Fetched, Text;
    ag.DummyRead(true);
    if f == FI {
      Plain(ag, PollIrqs);
      ag.overrideIRQ := true;
    }
    ag.Cleanup();
    Plain(ag, PutFlag(f, true));
    if f == FT {
      ag.noTAtEnd := true;
    }
    SetShape(f);
    r := ag.Finished();
  }

  /** BSR adds the offset to PC without a 16-bit mask. */
  method BranchSubroutine(ag: SwitchGen) returns (r: seq<seq<Op>>)
    requires ag.Fresh() && ag.aim.certify && ag.aim.wraps
    modifies ag
    ensures IsCertified(r, ag.aim.wraps, true, true)
    ensures r == Compile(Text(IBranchSub))
  {
    hide SwitchGen.Valid, IsOpen, OldPins, Compile, IsCertified, Finish, Write, Close, Ask, Load, Fetched, Text;
    ag.Operand(Some(RTA), false);
    ag.Addl(Move(RTA, Signed(RTA)));
    ag.AddCycle();
    ag.Addl(Sum(RTR(0), Reg(RPC), Num(-1), W16));
    ag.Push(Hi(RTR(0)), false);
    ag.Addl(Sum(RPC, Reg(RPC), Reg(RTA), W32));
    ag.Push(Lo(RTR(0)), false);
    ag.AddCycle();
    ag.AddCycle();
    BranchSubroutineShape();
    r := ag.Finished();
  }

  method ChangeSpeed(ag: SwitchGen, div: nat) returns (r: seq<seq<Op>>)
    requires ag.Fresh() && ag.aim.certify
    modifies ag
    ensures IsCertified(r, ag.aim.wraps, true, true)
    ensures r == Compile(Text(ISpeed(div)))
  {
    hide SwitchGen.Valid, IsOpen, OldPins, Compile, IsCertified, Finish, Write, Close, Ask, Load, Fetched, Text;
    ag.DummyRead(false);
    Plain(ag, Speed(div));
    SpeedShape(div);
    r := ag.Finished();
  }

  method ReturnFromSubroutine(ag: SwitchGen) returns (r: seq<seq<Op>>)
    requires ag.Fresh() && ag.aim.certify
    modifies ag
    ensures IsCertified(r, ag.aim.wraps, true, true)
    ensures r == Compile(Text(IReturn))
  {
    hide SwitchGen.Valid, IsOpen, OldPins, Compile, IsCertified, Finish, Write, Close, Ask, Load, Fetched, Text;
    ag.DummyRead(false);
    ag.AddCycle();
    ag.Pull(Move(RPC, Data), false);
    ag.Pull(Move(RTA, Data), false);
    JoinPC(ag, Reg(RTA));
    ag.AddCycle();
    ag.IncPC();
    ReturnShape();
    r := ag.Finished();
  }

  method ZeroPageWrite(ag: SwitchGen, dt: Src, inx: Option<Reg>) returns (r: seq<seq<Op>>)
    requires ag.Fresh() && ag.aim.certify && IsStored(dt) && IsIndex(inx)
    modifies ag
    ensures IsCertified(r, ag.aim.wraps, true, true)
    ensures r == Compile(Text(IWrite(Zp(inx), dt)))
  {
    hide SwitchGen.Valid, IsOpen, OldPins, Compile, IsCertified, Finish, Write, Close, Ask, Load, Fetched, Text;
    ag.Operand(Some(RTA), false);
    AddIndex(ag, RTA, inx, W8);
    ag.AddCycle();
    ag.StoreAt(ASK_TA.m, dt, true);
    WriteZeroShape(dt, inx);
    r := ag.Finished();
  }

  method TransferAccumulatorToMPR(ag: SwitchGen) returns (r: seq<seq<Op>>)
    requires ag.Fresh() && ag.aim.certify
    modifies ag
    ensures IsCertified(r, ag.aim.wraps, true, true)
    ensures r == Compile(Text(IToBanks))
  {
    hide SwitchGen.Valid, IsOpen, OldPins, Compile, IsCertified, Finish, Write, Close, Ask, Load, Fetched, Text;
    ag.Operand(Some(RTA), false);
    ag.AddCycle();
    ag.AddCycle();
    ag.Addl(StoreBanks);
    ToBanksShape();
    r := ag.Finished();
  }

  method TransferMPRToAccumulator(ag: SwitchGen) returns (r: seq<seq<Op>>)
    requires ag.Fresh() && ag.aim.certify
    modifies ag
    ensures IsCertified(r, ag.aim.wraps, true, true)
    ensures r == Compile(Text(IFromBanks))
  {
    hide SwitchGen.Valid, IsOpen, OldPins, Compile, IsCertified, Finish, Write, Close, Ask, Load, Fetched, Text;
    ag.Operand(Some(RTR(0)), false);
    ag.AddCycle();
    ag.Cleanup();
    ag.Addl(LoadBanks);
    FromBanksShape();
    r := ag.Finished();
  }

  method ReturnFromInterrupt(ag: SwitchGen) returns (r: seq<seq<Op>>)
    requires ag.Fresh() && ag.aim.certify
    modifies ag
    ensures IsCertified(r, ag.aim.wraps, true, false)
    ensures r == Compile(Text(IReturnInt))
  {
    hide SwitchGen.Valid, IsOpen, OldPins, Compile, IsCertified, Finish, Write, Close, Ask, Load, Fetched, Text;
    ag.DummyRead(false);
    ag.AddCycle();
    ag.Pull(LoadStatus, false);
    Plain(ag, DropBrk);
    ag.Pull(Move(RPC, Data), false);
    ag.Pull(Move(RTA, Data), true);
    JoinPC(ag, Reg(RTA));
    ag.AddCycle();
    ag.noTAtEnd := true;
    ReturnFromInterruptShape();
    r := ag.Finished();
  }

  method JumpAbsolute(ag: SwitchGen) returns (r: seq<seq<Op>>)
    requires ag.Fresh() && ag.aim.certify
    modifies ag
    ensures IsCertified(r, ag.aim.wraps, true, true)
    ensures r == Compile(Text(IJump))
  {
    hide SwitchGen.Valid, IsOpen, OldPins, Compile, IsCertified, Finish, Write, Close, Ask, Load, Fetched, Text;
    ag.Operand(Some(RTA), false);
    ag.Operand(Some(RTR(0)), false);
    JoinTA(ag, RTA, RTR(0));
    ag.Cleanup();
    ag.Addl(Move(RPC, Reg(RTA)));
    JumpShape();
    r := ag.Finished();
  }

  method BlockMove(ag: SwitchGen, k: MoveKind) returns (r: seq<seq<Op>>)
    requires ag.Fresh() && !ag.aim.certify
    modifies ag
    ensures r == Compile(Text(IMove(k)))
  {
    hide SwitchGen.Valid, IsOpen, OldPins, Compile, IsCertified, Finish, Write, Close, Ask, Load, Fetched, GBlockStart;
    BlockStart(ag);
    BlockLoop(ag, k);
    ag.Pull(Move(RX, Data), false);
    Plain(ag, BlockMode(false));
    ag.Pull(Move(RA, Data), false);
    ag.Pull(Move(RY, Data), true);
    BlockShape(k);
    r := ag.Finished();
  }
}
