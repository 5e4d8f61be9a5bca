/** Request lines that change in any cycle: each instruction looks at them once. */
module HucLines {
  import opened Common
  import opened HucMachine
  import opened HucMicrocode
  import opened HucCertify
  import opened HucSwitchgen
  import opened HucText
  import opened HucTable
  import opened HucInterrupts
  import opened HucRun
  import opened HucRefine

  // ----- Cases that do not poll -----

  /** No statement of a case looks at the request lines, but for an early exit. */
  predicate Deaf(c: Cycle) {
    c.post == [] && forall op <- c.pre :: op != Just(PollIrqs)
  }

  /**
   The last case closes the instruction. It alone polls; or, for SEI, the first alone does, and the last
   does not.
   */
  predicate PollsOnce(cs: seq<Cycle>, first: bool) {
    var n := |cs| - 1;
    && n >= 0 && cs[n].jump == Straight && |cs[n].post| > 0 && cs[n].post[|cs[n].post| - 1] == ClearTCU
    && (forall k :: (if first then 1 else 0) <= k < n ==> Deaf(cs[k]))
    && (first ==>
        && n == 1 && cs[0].jump == Straight && cs[0].post == [] && (forall op <- cs[0].pre :: op.Just?)
        && forall op <- cs[1].pre + cs[1].post :: op != Just(PollIrqs) && !op.BrEnd?)
  }

  lemma AddrDeaf(m: Mode, pre: seq<Op>)
    requires forall op <- pre :: op != Just(PollIrqs)
    ensures forall c <- AddrCases(m, pre) :: Deaf(c)
  {
  }

  lemma ReadDeaf(m: Mode, f: AluOp, dt: Reg)
    ensures PollsOnce(ReadCode(m, f, dt), false)
  {
    hide EndOps;
    EndOpsLast(true, true);
    AddrDeaf(m, []);
    hide AddrCases;
  }

  lemma QuietDeaf(m: Mode, dt: Reg)
    ensures PollsOnce(QuietCode(m, dt), false)
  {
    hide EndOps;
    EndOpsLast(true, true);
    AddrDeaf(m, []);
    hide AddrCases;
  }

  lemma MemDeaf(m: Mode, f: AluOp)
    ensures PollsOnce(MemCode(m, f), false)
  {
    AddrDeaf(m, [SAVE_A]);
    hide AddrCases;
  }

  lemma WriteDeaf(m: Mode, v: Src)
    ensures PollsOnce(WriteCode(m, v), false)
  {
  }

  lemma ModifyDeaf(m: Mode, f: AluOp, k: Slot, on: bool)
    ensures PollsOnce(ModifyCode(m, f), false) && PollsOnce(BitCode(k, on), false)
  {
    AddrDeaf(m, []);
    AddrDeaf(Zp(None), []);
    hide AddrCases;
  }

  lemma TestDeaf(m: Mode)
    ensures PollsOnce(TestCode(m), false)
  {
  }

  lemma ShortDeaf(ops: seq<Op>, poll: bool, clearT: bool)
    ensures PollsOnce(ShortCode(ops, poll, clearT), false) && PollsOnce(PullCode(ops, poll), false)
  {
  }

  lemma BranchDeaf(taken: Option<(FlagName, bool)>, k: Slot, on: bool, inx: Option<Reg>)
    ensures PollsOnce(BranchCode(taken), false) && PollsOnce(BitBranchCode(k, on), false)
    ensures PollsOnce(JumpIndirectCode(inx), false)
  {
  }

  lemma CallDeaf()
    ensures PollsOnce(CallCode(), false) && PollsOnce(ReturnCode(), false) && PollsOnce(BranchSubroutineCode(), false)
  {
  }

  lemma InterruptDeaf(vector: int)
    ensures PollsOnce(InterruptCode(vector), false) && PollsOnce(ReturnFromInterruptCode(), false)
  {
  }

  lemma BreakDeaf()
    ensures PollsOnce(BreakCode(), false) && PollsOnce(ResetCode(), false)
  {
  }

  lemma BlockDeaf(k: MoveKind)
    ensures PollsOnce(BlockCode(k), false)
  {
    SetupDeaf();
    BodyDeaf(k);
    hide BlockSetup, BlockBody;
  }

  lemma SetupDeaf()
    ensures |BlockSetup()| == 13 && forall c <- BlockSetup() :: Deaf(c)
  {
    hide Deaf;
    var cs := BlockSetup();
    forall k | 0 <= k < 13
      ensures Deaf(cs[k])
    {
      if k < 6 {
        EarlyDeaf(k);
      } else {
        LateDeaf(k);
      }
    }
    hide BlockSetup;
  }

  lemma EarlyDeaf(k: nat)
    requires k < 6
    ensures Deaf(BlockSetup()[k])
  {
  }

  lemma LateDeaf(k: nat)
    requires 6 <= k < 13
    ensures Deaf(BlockSetup()[k])
  {
  }

  lemma BodyDeaf(k: MoveKind)
    ensures |BlockBody(k)| == 6 && forall c <- BlockBody(k) :: Deaf(c)
  {
  }

  lemma SetDeaf(f: FlagName)
    ensures PollsOnce(Text(ISet(f)), f == FI)
  {
    hide EndOps;
    EndOpsLast(f != FI, f != FT);
    assert [ADDR_PC] + [] == [ADDR_PC];
    assert forall op <- [Just(PutFlag(f, true))] + FETCH :: op != Just(PollIrqs) && !op.BrEnd?;
  }

  lemma EndOpsLast(poll: bool, clearT: bool)
    ensures var e := EndOps(poll, clearT);
      |e| > 0 && e[|e| - 1] == ClearTCU && (!poll ==> forall op <- e :: op != Just(PollIrqs) && !op.BrEnd?)
  {
  }

  /** Deaf cases, and the usual end. */
  lemma EndingDeaf(cs: seq<Cycle>, ops: seq<Op>)
    requires forall c <- cs :: Deaf(c)
    ensures PollsOnce(cs + [Ending(ops, true, true)], false)
  {
    hide Deaf, EndOps;
    EndOpsLast(true, true);
  }

  lemma SwapDeaf(d1: Reg, d2: Reg)
    ensures PollsOnce(Text(ISwap(d1, d2)), false)
  {
    hide PollsOnce, Ending;
    EndingDeaf([C([ADDR_PC], READ), C([], IDLE)],
               [Just(Move(RTA, Reg(d1))), Just(Move(d1, Reg(d2))), Just(Move(d2, Reg(RTA)))]);
    Flatten<Cycle>();
  }

  lemma SpeedDeaf(div: nat)
    ensures PollsOnce(Text(ISpeed(div)), false)
  {
    hide PollsOnce, Ending;
    EndingDeaf([C([ADDR_PC], READ), C([Just(Speed(div))], IDLE)], []);
    Flatten<Cycle>();
  }

  lemma StoreDeaf(addr: nat)
    ensures PollsOnce(Text(IStore(addr)), false)
  {
    hide PollsOnce, Ending;
    EndingDeaf([C([ADDR_PC], READ), C([Take(RTR(0)), INC_PC], IDLE),
                C([Just(AddrFixed(addr)), Just(Out(Reg(RTR(0))))], WRITE)], []);
    Flatten<Cycle>();
  }

  lemma PushDeaf(v: Src)
    ensures PollsOnce(Text(IPush(v)), false)
  {
    hide PollsOnce, Ending;
    EndingDeaf([C([ADDR_PC], READ), C(PushOps(v), WRITE)], []);
    Flatten<Cycle>();
  }

  lemma ToBanksDeaf()
    ensures PollsOnce(Text(IToBanks), false)
  {
    hide PollsOnce, Ending;
    EndingDeaf([C([ADDR_PC], READ), C([Take(RTA), INC_PC], IDLE), C([], IDLE), C([Just(StoreBanks)], IDLE)], []);
    Flatten<Cycle>();
  }

  lemma FromBanksDeaf()
    ensures PollsOnce(Text(IFromBanks), false)
  {
    hide PollsOnce, Ending;
    EndingDeaf([C([ADDR_PC], READ), C([Take(RTR(0)), INC_PC], IDLE), C([], IDLE)], [Just(LoadBanks)]);
    Flatten<Cycle>();
  }

  lemma JumpDeaf()
    ensures PollsOnce(Text(IJump), false)
  {
    hide PollsOnce, Ending;
    EndingDeaf([C([ADDR_PC], READ), C([Take(RTA), INC_PC, ADDR_PC], READ),
                C([Take(RTR(0)), INC_PC, JOIN_TA], IDLE)], [Just(Move(RPC, Reg(RTA)))]);
    Flatten<Cycle>();
  }

  lemma OperandDeaf(i: Instr)
    requires i.IRead? || i.IMem? || i.IWrite? || i.IModify? || i.IBit? || i.ITest?
    ensures PollsOnce(Text(i), false)
  {
    hide PollsOnce, ReadCode, QuietCode, MemCode, WriteCode, ModifyCode, BitCode, TestCode;
    match i {
      case IRead(m, f, dt, _) =>
        ReadDeaf(m, f, dt);
        QuietDeaf(m, dt);
      case IMem(m, f) => MemDeaf(m, f);
      case IWrite(m, v) => WriteDeaf(m, v);
      case IModify(m, f) => ModifyDeaf(m, f, 0, false);
      case IBit(k, on) => ModifyDeaf(Imm, LD, k, on);
      case ITest(m) => TestDeaf(m);
    }
  }

  lemma PlainDeaf(i: Instr)
    requires i.IAlu? || i.IClear? || i.ITransfer? || i.IStackPointer? || i.INop? || i.IPull? || i.IPullP?
    ensures PollsOnce(Text(i), false)
  {
    hide PollsOnce, ShortCode, PullCode;
    match i {
      case IAlu(f, dt) => ShortDeaf([Just(Alu(f, dt, Reg(dt)))], true, true);
      case IClear(t) =>
        ShortDeaf([Just(if t.Register? then Move(t.g, Num(0)) else PutFlag(t.f, false))], t != Flag(FI), true);
      case ITransfer(src, dst) => ShortDeaf([Just(Move(dst, Reg(src))), Just(SetNZ(dst))], true, true);
      case IStackPointer => ShortDeaf([Just(Move(RS, Reg(RX)))], true, true);
      case INop => ShortDeaf([], true, true);
      case IPull(dt) => ShortDeaf([Take(dt), Just(SetNZ(dt))], true, true);
      case IPullP => ShortDeaf([Just(LoadStatus), Just(DropBrk)], false, false);
    }
  }

  /** Every instruction looks at the request lines in its last cycle only; SEI in its first only. */
  lemma TextDeaf(i: Instr)
    ensures PollsOnce(Text(i), i == ISet(FI))
  {
    hide PollsOnce, Text;
    match i {
      case IRead(_, _, _, _) => OperandDeaf(i);
      case IMem(_, _) => OperandDeaf(i);
      case IWrite(_, _) => OperandDeaf(i);
      case IModify(_, _) => OperandDeaf(i);
      case IBit(_, _) => OperandDeaf(i);
      case ITest(_) => OperandDeaf(i);
      case ISet(f) => SetDeaf(f);
      case ISwap(d1, d2) => SwapDeaf(d1, d2);
      case ISpeed(div) => SpeedDeaf(div);
      case IStore(addr) => StoreDeaf(addr);
      case IPush(v) => PushDeaf(v);
      case IToBanks => ToBanksDeaf();
      case IFromBanks => FromBanksDeaf();
      case IJump => JumpDeaf();
      case IBranch(_) => FlowDeaf(i);
      case IBranchBit(_, _) => FlowDeaf(i);
      case IJumpIndirect(_) => FlowDeaf(i);
      case ICall => FlowDeaf(i);
      case IReturn => FlowDeaf(i);
      case IBranchSub => FlowDeaf(i);
      case IBreak => FlowDeaf(i);
      case IInterrupt(_) => FlowDeaf(i);
      case IReturnInt => FlowDeaf(i);
      case IReset => FlowDeaf(i);
      case IMove(_) => FlowDeaf(i);
      case _ => PlainDeaf(i);
    }
  }

  lemma FlowDeaf(i: Instr)
    requires i.IBranch? || i.IBranchBit? || i.IJumpIndirect? || i.ICall? || i.IReturn? || i.IBranchSub? || i.IBreak?
      || i.IInterrupt? || i.IReturnInt? || i.IReset? || i.IMove?
    ensures PollsOnce(Text(i), false)
  {
    hide PollsOnce;
    FlowCodes(i);
    CallCodes();
    BreakCodes();
    hide Text;
    match i {
      case IBranch(taken) => BranchDeaf(taken, 0, false, None);
      case IBranchBit(k, on) => BranchDeaf(None, k, on, None);
      case IJumpIndirect(inx) => BranchDeaf(None, 0, false, inx);
      case ICall => CallDeaf();
      case IReturn => CallDeaf();
      case IBranchSub => CallDeaf();
      case IInterrupt(vector) => InterruptDeaf(vector);
      case IReturnInt => InterruptDeaf(0);
      case IMove(k) => BlockDeaf(k);
      case _ => BreakDeaf();
    }
  }

  lemma FlowCodes(i: Instr)
    ensures i.IBranch? ==> Text(i) == BranchCode(i.taken)
    ensures i.IBranchBit? ==> Text(i) == BitBranchCode(i.k, i.on)
    ensures i.IJumpIndirect? ==> Text(i) == JumpIndirectCode(i.inx)
    ensures i.IInterrupt? ==> Text(i) == InterruptCode(i.vector)
    ensures i.IMove? ==> Text(i) == BlockCode(i.move)
  {
    hide BranchCode, BitBranchCode, JumpIndirectCode, InterruptCode, BlockCode;
  }

  lemma CallCodes()
    ensures Text(ICall) == CallCode() && Text(IReturn) == ReturnCode() && Text(IBranchSub) == BranchSubroutineCode()
  {
    hide CallCode, ReturnCode, BranchSubroutineCode;
  }

  lemma BreakCodes()
    ensures Text(IBreak) == BreakCode() && Text(IReturnInt) == ReturnFromInterruptCode() && Text(IReset) == ResetCode()
  {
    hide ReturnFromInterruptCode, BreakCode, ResetCode;
  }

  // ----- Cycles under changing lines -----

  /** The cycles of one instruction, the devices setting the lines before each. */
  function TicksUnder(cases: seq<seq<Op>>, s: Cpu, ls: seq<Lines>): Cpu
    decreases |ls|
  {
    if |ls| == 0 then s else TicksUnder(cases, Tick(cases, Raise(s, ls[0])), ls[1..])
  }

  function WithLines(c: Core, lines: Lines): Core {
    c.(irq := c.irq.(raised := lines))
  }

  lemma MicroDeaf(m: Micro, c: Core, lines: Lines)
    requires m != PollIrqs
    ensures Do(m, WithLines(c, lines)) == WithLines(Do(m, c), lines)
  {
    hide Do;
    if Pinned(m) {
      PinsDeaf(m, c, lines);
    } else {
      OtherMicro(m, c);
      OtherMicro(m, WithLines(c, lines));
      RegsDeaf(m, c, lines);
    }
  }

  /** The statements that change more than registers. */
  predicate Pinned(m: Micro) {
    m.AddrMapped? || m.AddrPage1? || m.AddrStack? || m.AddrFixed? || m.AddrResetStack? || m.AddrNext? || m.Out?
    || m.Alu? || m.BlockMode? || m.Speed? || m.ResetMachine? || m.PollIrqs?
  }

  lemma OtherMicro(m: Micro, c: Core)
    requires !Pinned(m)
    ensures Do(m, c) == c.(r := DoRegs(m, c))
  {
    hide DoRegs;
  }

  lemma PinsDeaf(m: Micro, c: Core, lines: Lines)
    requires Pinned(m) && m != PollIrqs
    ensures Do(m, WithLines(c, lines)) == WithLines(Do(m, c), lines)
  {
    hide Mapped, ZeroPage, StackAddr, Eval, DoRegs, DoAlu;
    EvalDeaf(c, lines);
    if m.Alu? {
      AluDeaf(m.f, m.dst, m.v, c, lines);
    } else if m.AddrMapped? {
      MappedDeaf(c, Eval(c, m.v), lines);
    }
  }

  lemma MappedDeaf(c: Core, v: int, lines: Lines)
    ensures Mapped(WithLines(c, lines), v) == WithLines(Mapped(c, v), lines)
  {
    hide Phys;
  }

  lemma AluDeaf(f: AluOp, dst: Reg, v: Src, c: Core, lines: Lines)
    ensures DoAlu(WithLines(c, lines), f, dst, v) == WithLines(DoAlu(c, f, dst, v), lines)
  {
    hide AluEval, Eval, Set;
    EvalDeaf(c, lines);
  }

  lemma EvalDeaf(c: Core, lines: Lines)
    ensures forall v :: Eval(WithLines(c, lines), v) == Eval(c, v)
  {
  }

  lemma RegsDeaf(m: Micro, c: Core, lines: Lines)
    ensures DoRegs(m, WithLines(c, lines)) == DoRegs(m, c)
  {
    hide Eval, Set, NZ, Mask, Flip, Word, Get;
    EvalDeaf(c, lines);
  }

  lemma {:induction false} OpsDeaf(ops: seq<Op>, s: Cpu, lines: Lines)
    requires forall op <- ops :: op != Just(PollIrqs)
    ensures var f, g := RunOps(ops, Go(s)), RunOps(ops, Go(Raise(s, lines)));
      if f.Go? then g == Go(Raise(f.s, lines)) else g.Ret? && f.s.tcu == g.s.tcu == 0
    ensures (forall op <- ops :: !op.BrEnd?) ==> RunOps(ops, Go(s)).Go?
  {
    hide Do, BranchEnd;
    if |ops| > 0 {
      var n := |ops| - 1;
      assert ops[n] in ops && forall op <- ops[..n] :: op in ops;
      OpsDeaf(ops[..n], s, lines);
      var f := RunOps(ops[..n], Go(s));
      if f.Go? && ops[n].Just? {
        MicroDeaf(ops[n].m, f.s.core, lines);
      }
    }
  }

  /** A cycle without a poll does the same under any lines, unless it leaves the instruction early. */
  lemma TickDeaf(cases: seq<seq<Op>>, s: Cpu, lines: Lines)
    requires 0 <= s.tcu < |cases| ==> forall op <- cases[s.tcu] :: op != Just(PollIrqs)
    ensures var a, b := Tick(cases, s), Tick(cases, Raise(s, lines));
      a.tcu == b.tcu && (a.tcu != 0 ==> b == Raise(a, lines))
    ensures (0 <= s.tcu < |cases| ==> forall op <- cases[s.tcu] :: !op.BrEnd?) ==>
      Tick(cases, Raise(s, lines)) == Raise(Tick(cases, s), lines)
  {
    hide RunOps;
    var s1 := Latch(s);
    assert Latch(Raise(s, lines)) == Raise(s1, lines);
    if 0 <= s.tcu < |cases| {
      OpsDeaf(cases[s.tcu], s1, lines);
    }
  }

  lemma {:induction false} RetIsZero(ops: seq<Op>, s: Cpu)
    ensures RunOps(ops, Go(s)).Ret? ==> RunOps(ops, Go(s)).s.tcu == 0
  {
    hide Do, BranchEnd;
    if |ops| > 0 {
      RetIsZero(ops[..|ops| - 1], s);
    }
  }

  /** The last case closes the instruction. */
  lemma LastCloses(cs: seq<Cycle>, first: bool, s: Cpu)
    requires PollsOnce(cs, first) && s.tcu == |cs| - 1
    ensures Tick(Compile(cs), s).tcu == 0
  {
    hide Step, Emit;
    var n := |cs| - 1;
    var ops := Compile(cs)[n];
    LastOp(PinsBefore(cs, n), cs[n]);
    RetIsZero(ops[..|ops| - 1], Latch(s));
    ClearsTCU(RunOps(ops[..|ops| - 1], Go(Latch(s))));
  }

  lemma LastOp(before: Pins, c: Cycle)
    requires |c.post| > 0
    ensures var e := Emit(before, c); |e| > 0 && e[|e| - 1] == c.post[|c.post| - 1]
  {
  }

  lemma ClearsTCU(f: Flow)
    requires f.Ret? ==> f.s.tcu == 0
    ensures Then(f, ClearTCU).s.tcu == 0
  {
  }

  lemma EmitDeaf(c: Cycle, before: Pins)
    requires forall op <- c.pre + c.post :: op != Just(PollIrqs)
    ensures forall op <- Emit(before, c) :: op != Just(PollIrqs)
    ensures (forall op <- c.pre + c.post :: !op.BrEnd?) ==> forall op <- Emit(before, c) :: !op.BrEnd?
  {
    assert forall op <- c.pre :: op in c.pre + c.post;
    assert forall op <- c.post :: op in c.pre + c.post;
  }

  /** One instruction: its cycles under the lines given, TCU back at 0 after the last and not before. */
  ghost predicate EndsUnder(cases: seq<seq<Op>>, s: Cpu, ls: seq<Lines>)
    decreases |ls|
  {
    |ls| > 0
    && var u := Tick(cases, Raise(s, ls[0]));
      if |ls| == 1 then u.tcu == 0 else u.tcu != 0 && EndsUnder(cases, u, ls[1..])
  }

  lemma {:induction false} OpsKeepLines(ops: seq<Op>, s: Cpu)
    ensures RunOps(ops, Go(s)).s.core.irq.raised == s.core.irq.raised
  {
    hide Do, BranchEnd;
    if |ops| > 0 {
      var n := |ops| - 1;
      OpsKeepLines(ops[..n], s);
      var f := RunOps(ops[..n], Go(s));
      if f.Go? && ops[n].Just? {
        MicroKeepsLines(ops[n].m, f.s.core);
      }
      ExitKeepsLines(f.s.core);
    }
  }

  lemma ExitKeepsLines(c: Core)
    ensures BranchEnd(c).irq.raised == c.irq.raised
  {
    hide Phys;
  }

  lemma MicroKeepsLines(m: Micro, c: Core)
    ensures Do(m, c).irq.raised == c.irq.raised
  {
    hide Phys, ZeroPage, StackAddr, Eval, DoRegs, AluEval;
  }

  lemma TickKeepsLines(cases: seq<seq<Op>>, s: Cpu)
    ensures Tick(cases, s).core.irq.raised == s.core.irq.raised
  {
    hide RunOps;
    var s1 := Latch(s);
    if 0 <= s.tcu < |cases| {
      OpsKeepLines(cases[s.tcu], s1);
    }
  }

  /** Lines that change count for nothing before the last cycle. */
  lemma {:induction false} LastCounts(cs: seq<Cycle>, s: Cpu, u: Cpu, ls: seq<Lines>)
    requires PollsOnce(cs, false) && EndsUnder(Compile(cs), s, ls)
    requires u == Raise(s, ls[|ls| - 1])
    ensures Completes(Compile(cs), u, |ls|, TicksUnder(Compile(cs), s, ls))
    ensures TicksUnder(Compile(cs), s, ls).core.irq.raised == ls[|ls| - 1]
    decreases |ls|
  {
    hide Tick, Compile, PollsOnce;
    var cases, last := Compile(cs), ls[|ls| - 1];
    var s1, u1 := Tick(cases, Raise(s, ls[0])), Tick(cases, u);
    assert Ticks(cases, u, 1) == u1 by { assert Ticks(cases, u1, 0) == u1; }
    if |ls| == 1 {
      assert TicksUnder(cases, s1, ls[1..]) == s1;
      TickKeepsLines(cases, u);
    } else {
      CaseDeaf(cs, s, ls[0]);
      CaseDeaf(cs, s, last);
      RaiseTwice(s, ls[0], last);
      TickDeaf(cases, Raise(s, ls[0]), last);
      assert u1 == Raise(s1, last);
      LastCounts(cs, s1, u1, ls[1..]);
      CompletesMore(cases, u, |ls| - 1, TicksUnder(cases, s1, ls[1..]));
    }
  }

  lemma RaiseTwice(s: Cpu, l: Lines, m: Lines)
    ensures Raise(Raise(s, l), m) == Raise(s, m)
  {
  }

  /** A cycle that does not end the instruction is not the last case, so it does not poll. */
  lemma CaseDeaf(cs: seq<Cycle>, s: Cpu, lines: Lines)
    requires PollsOnce(cs, false)
    ensures Tick(Compile(cs), Raise(s, lines)).tcu != 0 && 0 <= s.tcu < |Compile(cs)| ==>
      forall op <- Compile(cs)[s.tcu] :: op != Just(PollIrqs)
  {
    hide Tick, Emit;
    if Tick(Compile(cs), Raise(s, lines)).tcu != 0 && 0 <= s.tcu < |Compile(cs)| {
      if s.tcu == |cs| - 1 {
        LastCloses(cs, false, Raise(s, lines));
      } else {
        assert Deaf(cs[s.tcu]);
        EmitDeaf(cs[s.tcu], PinsBefore(cs, s.tcu));
      }
    }
  }

  lemma CompletesMore(cases: seq<seq<Op>>, s: Cpu, n: nat, t: Cpu)
    requires Tick(cases, s).tcu != 0 && Completes(cases, Tick(cases, s), n, t)
    ensures Completes(cases, s, n + 1, t)
  {
    hide Tick;
    forall k: nat | 0 < k < n + 1
      ensures Ticks(cases, s, k).tcu != 0
    {
      assert Ticks(cases, s, k) == Ticks(cases, Tick(cases, s), k - 1);
    }
  }

  /** Statements other than jumps and exits leave TCU alone. */
  lemma {:induction false} PlainKeepsTCU(ops: seq<Op>, s: Cpu)
    requires forall op <- ops :: op.Just? || op.PinRD? || op.PinWR?
    ensures RunOps(ops, Go(s)).Go? && RunOps(ops, Go(s)).s.tcu == s.tcu
  {
    hide Do;
    if |ops| > 0 {
      assert ops[|ops| - 1] in ops && forall op <- ops[..|ops| - 1] :: op in ops;
      PlainKeepsTCU(ops[..|ops| - 1], s);
    }
  }

  lemma FirstTick(cs: seq<Cycle>, s: Cpu)
    requires PollsOnce(cs, true) && s.tcu == 0
    ensures Tick(Compile(cs), s).tcu == 1
  {
    hide RunOps;
    var ops := Compile(cs)[0];
    assert forall op <- ops :: op.Just? || op.PinRD? || op.PinWR?;
    PlainKeepsTCU(ops, Latch(s));
  }

  lemma SecondTick(cs: seq<Cycle>, s: Cpu, lines: Lines)
    requires PollsOnce(cs, true) && s.tcu == 1
    ensures Tick(Compile(cs), Raise(s, lines)) == Raise(Tick(Compile(cs), s), lines) && Tick(Compile(cs), s).tcu == 0
  {
    hide Tick, Emit;
    EmitDeaf(cs[1], PinsBefore(cs, 1));
    TickDeaf(Compile(cs), s, lines);
    LastCloses(cs, true, s);
  }

  /** SEI looks at the lines in its first cycle. */
  lemma FirstCounts(cs: seq<Cycle>, s: Cpu, ls: seq<Lines>) returns (t: Cpu)
    requires PollsOnce(cs, true) && s.tcu == 0 && EndsUnder(Compile(cs), s, ls)
    ensures |ls| == 2 && Completes(Compile(cs), Raise(s, ls[0]), 2, t)
    ensures TicksUnder(Compile(cs), s, ls) == Raise(t, ls[1])
  {
    hide Tick, Compile, PollsOnce;
    var cases, u := Compile(cs), Raise(s, ls[0]);
    var u1 := Tick(cases, u);
    FirstTick(cs, u);
    assert |ls| > 1;
    SecondTick(cs, u1, ls[1]);
    t := Tick(cases, u1);
    assert |ls| == 2 && TicksUnder(cases, Raise(t, ls[1]), ls[1..][1..]) == Raise(t, ls[1]);
    TwoTicks(cases, u);
  }

  lemma TwoTicks(cases: seq<seq<Op>>, s: Cpu)
    requires Tick(cases, s).tcu != 0 && Tick(cases, Tick(cases, s)).tcu == 0
    ensures Completes(cases, s, 2, Tick(cases, Tick(cases, s)))
  {
    hide Tick;
    var s1 := Tick(cases, s);
    assert Ticks(cases, s1, 0) == s1 && Ticks(cases, s, 1) == s1;
    assert Ticks(cases, Tick(cases, s1), 0) == Tick(cases, s1) && Ticks(cases, s1, 1) == Tick(cases, s1);
  }

  /** The lines an instruction finds: those before its last cycle; SEI those before its first. */
  function Found(i: Instr, ls: seq<Lines>): Lines
    requires |ls| > 0
  {
    if i == ISet(FI) then ls[0] else ls[|ls| - 1]
  }

  /** Under lines that change in every cycle an instruction does what it does under those it finds. */
  lemma InstrFinds(i: Instr, s: Cpu, ls: seq<Lines>) returns (t: Cpu)
    requires s.tcu == 0 && EndsUnder(Compile(Text(i)), s, ls)
    ensures Completes(Compile(Text(i)), Raise(s, Found(i, ls)), |ls|, t)
    ensures TicksUnder(Compile(Text(i)), s, ls) == Raise(t, ls[|ls| - 1])
  {
    hide Text, Compile, Tick, PollsOnce, Completes;
    TextDeaf(i);
    if i == ISet(FI) {
      t := FirstCounts(Text(i), s, ls);
    } else {
      t := TicksUnder(Compile(Text(i)), s, ls);
      LastCounts(Text(i), s, Raise(s, ls[|ls| - 1]), ls);
    }
  }

  // ----- Whole runs -----

  /** An instruction in a run: its table index, and the request lines before each of its cycles. */
  datatype Span = Span(opcode: int, lines: seq<Lines>)

  ghost predicate RunsUnder(table: Table, s: Cpu, hs: seq<Span>, t: Cpu)
    requires IsTable(table)
    decreases |hs|
  {
    if |hs| == 0 then s == t
    else
      var d := Decode(s);
      && d.Run? && d.opcode == hs[0].opcode && 0 <= d.opcode < ENTRIES
      && EndsUnder(EntryFor(table, d), d.s, hs[0].lines)
      && RunsUnder(table, TicksUnder(EntryFor(table, d), d.s, hs[0].lines), hs[1..], t)
  }

  /** Equal but for the request lines. */
  predicate Alike(s: Cpu, u: Cpu) {
    u == Raise(s, u.core.irq.raised)
  }

  lemma ServesAlike(s: Cpu, u: Cpu)
    requires Alike(s, u) && Decode(s).Run?
    ensures !u.core.irq.pending || AnyLine(u.core.irq.enabled, u.core.irq.polled)
  {
  }

  lemma DecodeAlike(s: Cpu, u: Cpu, lines: Lines)
    requires Alike(s, u) && Decode(s).Run?
    ensures var d := Begin(u, lines); d.Run? && d.opcode == Decode(s).opcode && d.s == Raise(Decode(s).s, lines)
  {
    hide Decode;
    ServesAlike(s, u);
    BeginIs(s, lines);
    BeginIs(u, lines);
  }

  /**
   Devices may change the request lines in any cycle: every such run is one in which each instruction
   finds one set of lines, the same states but for the lines, in the same number of cycles.
   */
  lemma {:induction false} LinesOnce(table: Table, s: Cpu, u: Cpu, hs: seq<Span>, t: Cpu)
      returns (es: seq<Event>, v: Cpu)
    requires IsTable(table) && RunsUnder(table, s, hs, t) && Alike(s, u) && s.tcu == 0
    ensures Runs(table, u, es, v) && Alike(t, v) && |es| == |hs|
    ensures forall k :: 0 <= k < |es| ==> es[k].opcode == hs[k].opcode && es[k].cycles == |hs[k].lines|
    decreases |hs|
  {
    hide Decode, Begin, EntryFor, Completes, Tick, Entry;
    if |hs| == 0 {
      es, v := [], u;
    } else {
      var d, ls := Decode(s), hs[0].lines;
      EntryText(table, s);
      var i := InstrOf(d.opcode, d.s.core.r.p.t);
      var w := InstrFinds(i, d.s, ls);
      var lines := Found(i, ls);
      DecodeAlike(s, u, lines);
      SameEntry(table, s, u, lines);
      TicksOf(EntryFor(table, d), Raise(d.s, lines), |ls|, w);
      AlikeEnd(TicksUnder(EntryFor(table, d), d.s, ls), w, ls[|ls| - 1]);
      CompletesZero(EntryFor(table, d), Raise(d.s, lines), |ls|, w);
      var rest;
      rest, v := LinesOnce(table, TicksUnder(EntryFor(table, d), d.s, ls), w, hs[1..], t);
      es := [Event(lines, d.opcode, |ls|)] + rest;
      assert es[1..] == rest;
    }
  }

  lemma CompletesZero(cases: seq<seq<Op>>, s: Cpu, n: nat, t: Cpu)
    requires Completes(cases, s, n, t)
    ensures t.tcu == 0
  {
  }

  lemma AlikeEnd(t: Cpu, w: Cpu, lines: Lines)
    requires t == Raise(w, lines)
    ensures Alike(t, w) && t.tcu == w.tcu
  {
  }

  lemma EntryText(table: Table, s: Cpu)
    requires IsTable(table) && Decode(s).Run? && 0 <= Decode(s).opcode < ENTRIES
    ensures var d := Decode(s);
      EntryFor(table, d) == Compile(Text(InstrOf(d.opcode, d.s.core.r.p.t))) && d.s.tcu == s.tcu
  {
    hide InstrOf, Text, Compile;
    var d := Decode(s);
    assert Entry(d.opcode, d.s.core.r.p.t, EntryFor(table, d));
  }

  lemma SameEntry(table: Table, s: Cpu, u: Cpu, lines: Lines)
    requires IsTable(table) && Alike(s, u) && Decode(s).Run? && 0 <= Decode(s).opcode < ENTRIES
    requires Begin(u, lines).Run? && Begin(u, lines).opcode == Decode(s).opcode
    requires Begin(u, lines).s == Raise(Decode(s).s, lines)
    ensures EntryFor(table, Begin(u, lines)) == EntryFor(table, Decode(s))
  {
    hide Decode, Begin, Entry;
  }

  /** So the refinement of the instruction set holds for lines that change in any cycle. */
  lemma LinesRefine(table: Table, s: Cpu, hs: seq<Span>, t: Cpu) returns (es: seq<Event>, v: Cpu)
    requires IsTable(table) && AtBoundary(false, s) && RunsUnder(table, s, hs, t)
    ensures Runs(table, s, es, v) && Alike(t, v) && |es| == |hs|
    ensures forall k :: 0 <= k < |es| ==> es[k].opcode == hs[k].opcode && es[k].cycles == |hs[k].lines|
    ensures BranchesStay(table, s, es) ==>
      Visible(v) == IsaRun(Visible(s), Requests(es)) && Cycles(es) == IsaCycles(Visible(s), Requests(es))
  {
    hide Runs, RunsUnder, BranchesStay, Requests;
    es, v := LinesOnce(table, s, s, hs, t);
    if BranchesStay(table, s, es) {
      RunsRefine(table, s, es, v);
    }
  }
}
