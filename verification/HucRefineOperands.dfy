/** Instructions that work on a fetched operand, branches, BRK and RESET, against HucIsa. */
module HucRefineOperands {
  import opened Common
  import opened BitOps
  import opened HucMachine
  import opened HucMicrocode
  import opened HucCertify
  import opened HucSwitchgen
  import opened HucText
  import opened HucExec
  import opened HucOperands
  import opened HucTMode
  import opened HucBlockMove
  import opened HucCalls
  import opened HucStraight
  import opened HucIsa
  import opened HucRefineBasics

  // ----- The operand byte -----

  /** The core with the operand byte of form m delivered. */
  function AtOperand(m: Mode, s: Cpu): Core
    requires Word16(s.core.r.pc)
  {
    var a := Address(m, Latched(s), s.mem);
    a.(d := Read(s.mem, a.addr))
  }

  lemma AddrFold(m: Mode, s: Cpu)
    requires Ready(s) && IsMode(m)
    ensures forall c <- AddrCases(m, []) :: Plain(c)
    ensures Fold(AddrCases(m, []), Hold(s)) == Held(AtOperand(m, s), s.mem)
  {
    hide AddrCases, Address, Plain, Fold, EndOps, RefTick, Micros, Phys;
    var cs, n := AddrCases(m, []) + [Ending([], true, true)], |AddrCases(m, [])|;
    AddrPlain(m, []);
    MicrosNone(Latched(s));
    AddressPhase(cs, m, s, [], Latched(s));
    WithinNone(cs, s);
    var v := StraightFrom(cs, s, 0, s, n);
    assert cs[0..n] == AddrCases(m, []);
  }

  /** What HucIsa sees of the address does not depend on D. */
  lemma OperandKept(m: Mode, s: Cpu)
    requires Ready(s) && IsMode(m)
    ensures var a := Address(m, s.core, s.mem);
      && Kept(AtOperand(m, s), AtPC(s.core, a.r.pc)) && AtOperand(m, s).d == Read(s.mem, a.addr)
      && Fits(Byte, AtOperand(m, s).d) && Word16(a.r.pc)
      && ((m.Zp? || m.Abso?) ==> Fits(if m.Zp? then Byte else Half, AtOperand(m, s).r.ta))
      && (m.Zp? ==> a.addr == ZeroPage(s.core.r.mpr, AtOperand(m, s).r.ta))
      && (m.Abso? ==> a.addr == Phys(s.core.r.mpr, AtOperand(m, s).r.ta))
  {
    hide Phys, ZeroPage, Word;
  }

  lemma FormLength(m: Mode)
    ensures |AddrCases(m, [])| + 1 == FormCycles(m)
  {
  }

  /** Statements that lead from the operand byte to the result. */
  function UseOps(m: Mode, f: AluOp, dt: Reg): seq<Op> {
    (if m.Ind? then [Take(RTR(0))] else []) + [Just(Alu(f, dt, ReadSrc(m)))]
  }

  lemma UseKept(m: Mode, f: AluOp, dt: Reg, quiet: bool, s: Cpu)
    requires Ready(s) && Proper(IRead(m, f, dt, quiet))
    ensures Kept(Micros(UseOps(m, f, dt), AtOperand(m, s)), Result(IRead(m, f, dt, quiet), s).c)
  {
    hide Micros, Do, AtOperand, Address, AluEval, Kept;
    OperandKept(m, s);
    var l, e := AtOperand(m, s), AtPC(s.core, Address(m, s.core, s.mem).r.pc);
    var v := l.d;
    if m.Ind? {
      TakeDo(l, RTR(0));
      var l1 := l.(r := l.r.(tr := l.r.tr[0 := l.d]));
      assert Kept(l1, e) by { KeptScratch(l, e, l.d); }
      Micros2(Take(RTR(0)).m, Alu(f, dt, ReadSrc(m)), l);
      assert UseOps(m, f, dt) == [Take(RTR(0)), Just(Alu(f, dt, ReadSrc(m)))];
      AluKept(l1, e, f, dt, ReadSrc(m), v);
    } else {
      Micros1(Alu(f, dt, ReadSrc(m)), l);
      assert UseOps(m, f, dt) == [Just(Alu(f, dt, ReadSrc(m)))];
      AluKept(l, e, f, dt, ReadSrc(m), v);
    }
    AluSees(f, e.r, s.core.r, v);
  }

  lemma KeptScratch(c: Core, e: Core, v: int)
    requires Kept(c, e)
    ensures Kept(c.(r := c.r.(tr := c.r.tr[0 := v])), e)
  {
  }

  /** Reads that always run to the last case. */
  lemma ReadWhole(m: Mode, f: AluOp, dt: Reg, quiet: bool, s: Cpu) returns (t: Cpu)
    requires Ready(s) && Proper(IRead(m, f, dt, quiet)) && !Splits(f)
    ensures Refines(IRead(m, f, dt, quiet), s, t)
  {
    hide Micros, Do, AddrCases, AtOperand, Address, AluEval, EndOps, Plain, Fold, Refines, Kept;
    var i, cs, n := IRead(m, f, dt, quiet), ReadCode(m, f, dt), |AddrCases(m, [])|;
    AddrFold(m, s);
    FormLength(m);
    UseKept(m, f, dt, quiet, s);
    assert cs[..n] == AddrCases(m, []);
    t := WorkEnd(i, cs, s, AtOperand(m, s), UseOps(m, f, dt), Micros(UseOps(m, f, dt), AtOperand(m, s)));
  }

  lemma DecimalKept(m: Mode, f: AluOp, dt: Reg, quiet: bool, s: Cpu)
    requires Ready(s) && Proper(IRead(m, f, dt, quiet))
    ensures Result(IRead(m, f, dt, quiet), s).c.r.p.d == s.core.r.p.d &&
      Word16(Result(IRead(m, f, dt, quiet), s).c.r.pc)
  {
    hide AluEval, Address;
    OperandKept(m, s);
    AluKeeps(f, s.core.r, Read(s.mem, Address(m, s.core, s.mem).addr));
  }

  /** ADC and SBC end a case early, unless in decimal mode. */
  lemma ReadSplit(m: Mode, f: AluOp, dt: Reg, quiet: bool, s: Cpu) returns (t: Cpu)
    requires Ready(s) && Proper(IRead(m, f, dt, quiet)) && Splits(f)
    ensures Refines(IRead(m, f, dt, quiet), s, t)
  {
    hide Micros, Do, AddrCases, AtOperand, Address, AluEval, EndOps, Plain, Fold, Refines, Compile, Completes, Fetch,
      Phys, PinsBefore;
    var i, n, ops := IRead(m, f, dt, quiet), |AddrCases(m, [])|, UseOps(m, f, dt);
    var rest := if quiet && f.SBC? then [] else [ADDR_PC];
    var cs := Text(i);
    AddrFold(m, s);
    FormLength(m);
    UseKept(m, f, dt, quiet, s);
    DecimalKept(m, f, dt, quiet, s);
    SplitShape(m, f, dt, quiet);
    t := SplitExec(cs, s, n, ops, NotDecimal, rest, []);
    var x := Micros(ops, AtOperand(m, s));
    if s.core.r.p.d {
      var y := Cyc(Through(cs[n], ops, rest), Held(AtOperand(m, s), s.mem));
      assert cs[n + 1..|cs| - 1] == [];
      FoldNone(y);
      MicrosAppend(ops, rest, AtOperand(m, s));
      MicrosNone(x);
      Micros1(ADDR_PC.m, x);
      AskPcDo(x);
      assert Kept(y.c, x) && y.mem == s.mem;
      KeptTwice(y.c, x, Result(i, s).c);
      MicrosNone(y.c);
      KeptEnds(i, s, t, y.c, |cs|);
    } else {
      BranchEndIsEnded(x);
      EndedIs(x);
      KeptEnds(i, s, t, x, n + 1);
    }
  }

  lemma KeptTwice(c: Core, d: Core, e: Core)
    requires Kept(c, d) && Kept(d, e)
    ensures Kept(c, e)
  {
  }

  lemma SplitShape(m: Mode, f: AluOp, dt: Reg, quiet: bool)
    requires Splits(f)
    ensures var cs, n := Text(IRead(m, f, dt, quiet)), |AddrCases(m, [])|;
      && cs[..n] == AddrCases(m, []) && |cs| == n + 2
      && Splits1(cs, n, UseOps(m, f, dt), NotDecimal, if quiet && f.SBC? then [] else [ADDR_PC], [])
  {
    hide AddrCases, EndOps;
    var cs, n := Text(IRead(m, f, dt, quiet)), |AddrCases(m, [])|;
    AddrPlain(m, []);
    LastAsks(m);
    assert cs[..n] == AddrCases(m, []);
    assert cs[n - 1] == AddrCases(m, [])[n - 1];
    assert cs[n + 1..|cs| - 1] == [];
    var ops := UseOps(m, f, dt);
    assert ops + [BrEnd(NotDecimal)] + [ADDR_PC] == ops + [BrEnd(NotDecimal), ADDR_PC];
    assert ops + [BrEnd(NotDecimal)] + [] == ops + [BrEnd(NotDecimal)];
  }

  // ----- Read-modify-write -----

  lemma AluScratch(c: Core, e: Core, f: AluOp, v: byte)
    requires Kept(c, e) && Fits(Byte, e.r.a) && c.r.tr[0] == v && Stores(f)
    ensures var x, o := Do(Alu(f, RTR(1), Reg(RTR(0))), c), AluEval(f, e.r, v);
      Kept(x, WithFlags(e, o.p)) && x.r.tr[1] == o.res && x.r.ta == c.r.ta
  {
    hide AluEval;
    AluSees(f, c.r.(a := AsByte(c.r.a)), e.r, v);
  }

  /** The byte goes to TR[0]. */
  lemma TakeCyc(cs: seq<Cycle>, k: nat, s: Cpu, l: Core)
    requires k < |cs| && cs[k] == C([Take(RTR(0))], IDLE) && (forall y <- cs[..k] :: Plain(y))
    requires Fold(cs[..k], Hold(s)) == Held(l, s.mem) && Fits(Byte, l.d)
    ensures forall y <- cs[..k + 1] :: Plain(y)
    ensures Fold(cs[..k + 1], Hold(s)) == Held(l.(r := l.r.(tr := l.r.tr[0 := l.d])), s.mem)
  {
    hide Fold, Micros, Do, Plain;
    Micros1(Take(RTR(0)).m, l);
    TakeDo(l, RTR(0));
    Onward(cs, k, s, Held(l, s.mem), [Take(RTR(0))], IDLE, l.(r := l.r.(tr := l.r.tr[0 := l.d])));
  }

  /** A case that puts TR[j] at the address in TA. */
  lemma PutBack(m: Mode, c: Core, s: Cpu, j: Slot, op: Micro, x: Core)
    requires (m.Zp? || m.Abso?) && Ready(s) && IsMode(m) && Do(op, c) == x && x.r.ta == AtOperand(m, s).r.ta &&
      x.r.mpr == s.core.r.mpr
    ensures var a := Address(m, s.core, s.mem).addr;
      Micros([Just(op), AskOp(m), Just(Out(Reg(RTR(j))))], c) == x.(addr := a, d := x.r.tr[j])
  {
    hide Micros, Do, Phys, ZeroPage, Address, AtOperand;
    OperandKept(m, s);
    AskDo(x);
    var y := x.(addr := Address(m, s.core, s.mem).addr);
    OutScratch(y, j);
    Micros3(op, AskOp(m).m, Out(Reg(RTR(j))), c);
  }

  lemma OutScratch(c: Core, j: Slot)
    ensures Do(Out(Reg(RTR(j))), c) == c.(d := c.r.tr[j])
  {
  }

  lemma ModifyExec(m: Mode, f: AluOp, s: Cpu) returns (t: Cpu)
    requires Ready(s) && Proper(IModify(m, f))
    ensures Refines(IModify(m, f), s, t)
  {
    hide Micros, Do, AddrCases, AtOperand, Address, AluEval, EndOps, Plain, Fold, Refines, Kept;
    var i, cs, n := IModify(m, f), ModifyCode(m, f), |AddrCases(m, [])|;
    assert Text(i) == cs && Proper(i) && PollsAtEnd(i) && ClearsAtEnd(i);
    hide Text, Proper, PollsAtEnd, ClearsAtEnd;
    AddrFold(m, s);
    FormLength(m);
    OperandKept(m, s);
    assert cs[..n] == AddrCases(m, []);
    var l, e := AtOperand(m, s), AtPC(s.core, Address(m, s.core, s.mem).r.pc);
    TakeCyc(cs, n, s, l);
    var l1 := l.(r := l.r.(tr := l.r.tr[0 := l.d]));
    KeptScratch(l, e, l.d);
    AluScratch(l1, e, f, l.d);
    AluSees(f, e.r, s.core.r, l.d);
    var op := Alu(f, RTR(1), Reg(RTR(0)));
    var x, o := Do(op, l1), AluEval(f, s.core.r, l.d);
    KeptMpr(x, WithFlags(e, o.p));
    PutBack(m, l1, s, 1, op, x);
    var y := x.(addr := Address(m, s.core, s.mem).addr, d := x.r.tr[1]);
    KeptPins(x, WithFlags(e, o.p), y.addr, y.d);
    Onward(cs, n + 1, s, Held(l1, s.mem), [Just(op), AskOp(m), Just(Out(Reg(RTR(1))))], WRITE, y);
    t := PlainEnd(i, cs, s, y);
  }

  lemma KeptMpr(c: Core, e: Core)
    requires Kept(c, e)
    ensures c.r.mpr == e.r.mpr
  {
  }

  lemma KeptPins(c: Core, e: Core, addr: int, d: int)
    requires Kept(c, e)
    ensures Kept(c.(addr := addr, d := d), e)
  {
  }

  lemma BitDo(c: Core, k: Slot, on: bool)
    requires Fits(Byte, c.r.tr[0])
    ensures Do(if on then SetBit(RTR(0), k) else ResetBit(RTR(0), k), c)
         == c.(r := c.r.(tr := c.r.tr[0 := BitPut(c.r.tr[0], k, on)]))
  {
    hide Digit, Pow2;
    assert c.r.tr[0 := c.r.tr[0]] == c.r.tr;
  }

  /** What RMB and SMB leave, through the address of the zero-page form. */
  lemma BitResult(k: Slot, on: bool, s: Cpu)
    requires Ready(s)
    ensures var o, a := Result(IBit(k, on), s), Address(Zp(None), s.core, s.mem);
      o.c == Past1(s) && AtPC(s.core, a.r.pc) == Past1(s) && o.cycles == 7
      && o.mem == s.mem[a.addr := AsByte(BitPut(Read(s.mem, a.addr), k, on))]
  {
    hide Phys, ZeroPage, BitPut;
  }

  lemma BitExec(k: Slot, on: bool, s: Cpu) returns (t: Cpu)
    requires Ready(s)
    ensures Refines(IBit(k, on), s, t)
  {
    hide Micros, Do, AtOperand, EndOps, Plain, Fold, Refines, Kept, BitPut, AddrCases, Address, Result;
    var i, cs, m := IBit(k, on), BitCode(k, on), Zp(None);
    AddrFold(m, s);
    FormLength(m);
    OperandKept(m, s);
    BitResult(k, on, s);
    assert cs[..3] == AddrCases(m, []);
    var l, e := AtOperand(m, s), Past1(s);
    TakeCyc(cs, 3, s, l);
    var l1 := l.(r := l.r.(tr := l.r.tr[0 := l.d]));
    IdleCyc(cs, 4, s);
    BitDo(l1, k, on);
    var op := if on then SetBit(RTR(0), k) else ResetBit(RTR(0), k);
    var x := l1.(r := l1.r.(tr := l1.r.tr[0 := BitPut(l.d, k, on)]));
    KeptScratch(l, e, BitPut(l.d, k, on));
    KeptMpr(x, e);
    PutBack(m, l1, s, 0, op, x);
    var y := x.(addr := Address(m, s.core, s.mem).addr, d := x.r.tr[0]);
    KeptPins(x, e, y.addr, y.d);
    Onward(cs, 5, s, Held(l1, s.mem), [Just(op), AskOp(m), Just(Out(Reg(RTR(0))))], WRITE, y);
    t := PlainEnd(i, cs, s, y);
  }

  // ----- TST -----

  /** The mask taken to TR[0], the next byte delivered. */
  lemma MaskCyc(cs: seq<Cycle>, s: Cpu) returns (q: Core)
    requires Ready(s) && |cs| > 2 && cs[0] == C([ADDR_PC], READ) && cs[1] == C([Take(RTR(0)), INC_PC, ADDR_PC], READ)
    ensures forall y <- cs[..2] :: Plain(y)
    ensures Fold(cs[..2], Hold(s)) == Held(q, s.mem) && Kept(q, Past1(s)) && q.r.tr[0] == First(s) && q.d == Second(s)
  {
    hide Fold, Micros, Do, Phys, Plain;
    FirstCyc(cs, s);
    PeekKept(s);
    var p := Peek(Latched(s), s.mem);
    TakeAsk(cs, 1, s, Held(p, s.mem), RTR(0));
    q := Peek(TakeNext(p, RTR(0)), s.mem);
  }

  lemma IndexTR1(c: Core, inx: Option<Reg>)
    requires IsIndex(inx) && Fits(Byte, c.r.tr[1])
    ensures Micros(IndexOps(RTR(1), inx, W8), c) ==
      c.(r := c.r.(tr := c.r.tr[1 := (c.r.tr[1] + Index(c.r, inx)) % 256]))
  {
    hide Do, Micros;
    if inx.Some? {
      Micros1(Sum(RTR(1), Reg(RTR(1)), Reg(inx.value), W8), c);
      SumTR1(c, inx.value);
    } else {
      MicrosNone(c);
      assert c.r.tr[1 := c.r.tr[1]] == c.r.tr;
    }
  }

  lemma SumTR1(c: Core, g: Reg)
    ensures Do(Sum(RTR(1), Reg(RTR(1)), Reg(g), W8), c) ==
      c.(r := c.r.(tr := c.r.tr[1 := (c.r.tr[1] + Get(c.r, g)) % 256]))
  {
  }

  lemma AskTR1(c: Core)
    ensures Do(AddrPage1(Reg(RTR(1))), c) == c.(addr := ZeroPage(c.r.mpr, c.r.tr[1]))
  {
    hide ZeroPage;
  }

  lemma TestDo(c: Core, m: Reg)
    requires Fits(Byte, c.r.tr[0]) && Fits(Byte, Get(c.r, m)) && (m == RTA || m == RTR(2))
    ensures Do(TestMask(Reg(RTR(0)), Reg(m)), c) == WithFlags(c, Tested(c.r.p, Get(c.r, m), c.r.tr[0]))
  {
    hide BitAnd, Bit6, Bit7;
  }

  /** The operand of TST from zero page, delivered. */
  lemma TestZeroAddress(cs: seq<Cycle>, s: Cpu, inx: Option<Reg>, q: Core) returns (l: Core)
    requires Ready(s) && IsIndex(inx) && |cs| > 5 && cs[2] == C([Take(RTR(1)), INC_PC], IDLE) && cs[3] == C([], IDLE)
    requires cs[4] == C(IndexOps(RTR(1), inx, W8) + [Just(AddrPage1(Reg(RTR(1))))], READ)
    requires (forall y <- cs[..2] :: Plain(y)) && Fold(cs[..2], Hold(s)) == Held(q, s.mem)
    requires Kept(q, Past1(s)) && q.r.tr[0] == First(s) && q.d == Second(s)
    ensures forall y <- cs[..5] :: Plain(y)
    ensures Fold(cs[..5], Hold(s)) == Held(l, s.mem) && Kept(l, Past2(s)) && l.r.tr[0] == First(s)
    ensures l.d == Read(s.mem, ZeroPage(s.core.r.mpr, (Second(s) + Index(s.core.r, inx)) % 256))
  {
    hide Micros, Do, Plain, Fold, Phys, ZeroPage;
    var c := TakeNext(q, RTR(1));
    MicrosNone(c);
    assert [Take(RTR(1)), INC_PC] + [] == [Take(RTR(1)), INC_PC];
    TakeMore(cs, 2, s, Held(q, s.mem), RTR(1), [], IDLE, c);
    IdleCyc(cs, 3, s);
    var ix, ta := IndexOps(RTR(1), inx, W8), (Second(s) + Index(s.core.r, inx)) % 256;
    IndexTR1(c, inx);
    var e := c.(r := c.r.(tr := c.r.tr[1 := ta]));
    AskTR1(e);
    MicrosAppend(ix, [Just(AddrPage1(Reg(RTR(1))))], c);
    Micros1(AddrPage1(Reg(RTR(1))), e);
    Onward(cs, 4, s, Held(c, s.mem), ix + [Just(AddrPage1(Reg(RTR(1))))], READ, e.(addr := ZeroPage(e.r.mpr, ta)));
    l := e.(addr := ZeroPage(e.r.mpr, ta), d := Read(s.mem, ZeroPage(e.r.mpr, ta)));
  }

  /** What TST leaves, from the core `l` with both bytes fetched. */
  lemma TestResult(m: Mode, s: Cpu, l: Core, x: Core)
    requires Ready(s) && Proper(ITest(m))
    requires var a := Address(m, Past1(s), s.mem);
      && Kept(l, AtPC(s.core, a.r.pc)) && Kept(x, WithFlags(l, Tested(l.r.p, Read(s.mem, a.addr), First(s))))
    ensures Kept(x, Result(ITest(m), s).c) && Result(ITest(m), s).mem == s.mem &&
      Result(ITest(m), s).cycles == FormCycles(m) + 3
  {
    hide Address, Tested;
  }

  lemma ZeroAddressIs(inx: Option<Reg>, s: Cpu)
    requires Ready(s) && IsIndex(inx)
    ensures var a := Address(Zp(inx), Past1(s), s.mem);
      AtPC(s.core, a.r.pc) == Past2(s) && a.addr == ZeroPage(s.core.r.mpr, (Second(s) + Index(s.core.r, inx)) % 256)
  {
    hide Phys, ZeroPage;
  }

  lemma TestZeroExec(inx: Option<Reg>, s: Cpu) returns (t: Cpu)
    requires Ready(s) && IsIndex(inx)
    ensures Refines(ITest(Zp(inx)), s, t)
  {
    hide Micros, Do, EndOps, Plain, Fold, Refines, ZeroPage, Tested, Result, Address, Index, Phys;
    var i, cs := ITest(Zp(inx)), TestCode(Zp(inx));
    var q := MaskCyc(cs, s);
    var l := TestZeroAddress(cs, s, inx, q);
    ZeroAddressIs(inx, s);
    TestTail(l, RTA, First(s));
    var x := WithFlags(l.(r := l.r.(ta := l.d)), Tested(l.r.p, l.d, First(s)));
    Onward(cs, 5, s, Held(l, s.mem), [Take(RTA), Just(TestMask(Reg(RTR(0)), Reg(RTA)))], IDLE, x);
    TestResult(Zp(inx), s, l, x);
    t := PlainEnd(i, cs, s, x);
  }

  lemma TestTail(l: Core, m: Reg, mask: byte)
    requires l.r.tr[0] == mask && Fits(Byte, l.d) && (m == RTA || m == RTR(2))
    ensures Micros([Take(m), Just(TestMask(Reg(RTR(0)), Reg(m)))], l)
         == WithFlags(l.(r := Set(l.r, m, l.d)), Tested(l.r.p, l.d, mask))
  {
    hide Micros, Do, Tested;
    Micros2(Take(m).m, TestMask(Reg(RTR(0)), Reg(m)), l);
    TakeDo(l, m);
    TestDo(l.(r := Set(l.r, m, l.d)), m);
  }

  lemma JoinTA1(c: Core)
    ensures Do(Join(RTA, Reg(RTA), Reg(RTR(1))), c) == c.(r := c.r.(ta := Word(c.r.ta, c.r.tr[1])))
  {
    hide Word;
  }

  lemma AbsoluteAddressIs(inx: Option<Reg>, s: Cpu)
    requires Ready(s) && IsIndex(inx)
    ensures var a := Address(Abso(inx), Past1(s), s.mem);
      && a.r.pc == Inc16(Inc16(Inc16(s.core.r.pc)))
      && a.addr == Phys(s.core.r.mpr,
        (Word(Second(s), Read(s.mem, Phys(s.core.r.mpr, Inc16(Inc16(s.core.r.pc))))) + Index(s.core.r, inx)) % 65536)
  {
    hide Phys, Word;
  }

  /** The operand of TST from memory, delivered. */
  lemma TestAbsoluteAddress(cs: seq<Cycle>, s: Cpu, inx: Option<Reg>) returns (l: Core)
    requires Ready(s) && IsIndex(inx) && cs == TestCode(Abso(inx))
    ensures forall y <- cs[..6] :: Plain(y)
    ensures var a := Address(Abso(inx), Past1(s), s.mem);
      && Fold(cs[..6], Hold(s)) == Held(l, s.mem) && Kept(l, AtPC(s.core, a.r.pc))
      && l.r.tr[0] == First(s) && l.d == Read(s.mem, a.addr)
  {
    hide Micros, Do, EndOps, Plain, Fold, Phys, Word, Address, Inc16;
    AbsoluteAddressIs(inx, s);
    var q := MaskCyc(cs, s);
    var x := TestAddress(cs, s, q);
    IdleCyc(cs, 4, s);
    IndexedCyc(cs, 5, s, x, inx);
    var ta := (x.r.ta + Index(x.r, inx)) % 65536;
    l := x.(addr := Phys(x.r.mpr, ta), d := Read(s.mem, Phys(x.r.mpr, ta)), r := x.r.(ta := ta));
  }

  lemma TestAbsoluteExec(inx: Option<Reg>, s: Cpu) returns (t: Cpu)
    requires Ready(s) && IsIndex(inx)
    ensures Refines(ITest(Abso(inx)), s, t)
  {
    hide Micros, Do, EndOps, Plain, Fold, Refines, Tested, Address, Result;
    var i, cs, op := ITest(Abso(inx)), TestCode(Abso(inx)), TestMask(Reg(RTR(0)), Reg(RTR(2)));
    var l := TestAbsoluteAddress(cs, s, inx);
    Micros1(Take(RTR(2)).m, l);
    TakeDo(l, RTR(2));
    var w := l.(r := l.r.(tr := l.r.tr[2 := l.d]));
    Onward(cs, 6, s, Held(l, s.mem), [Take(RTR(2))], IDLE, w);
    TestDo(w, RTR(2));
    Micros1(op, w);
    TestResult(Abso(inx), s, w, Do(op, w));
    t := WorkEnd(i, cs, s, w, [Just(op)], Do(op, w));
  }

  /** The address of TST after its mask, in TA. */
  lemma TestAddress(cs: seq<Cycle>, s: Cpu, q: Core) returns (x: Core)
    requires Ready(s) && |cs| > 3 && cs[2] == C([Take(RTA), INC_PC, ADDR_PC], READ)
    requires cs[3] == C([Take(RTR(1)), INC_PC, Just(Join(RTA, Reg(RTA), Reg(RTR(1))))], IDLE)
    requires (forall y <- cs[..2] :: Plain(y)) && Fold(cs[..2], Hold(s)) == Held(q, s.mem)
    requires Kept(q, Past1(s)) && q.r.tr[0] == First(s) && q.d == Second(s)
    ensures forall y <- cs[..4] :: Plain(y)
    ensures Fold(cs[..4], Hold(s)) == Held(x, s.mem) && Kept(x, AtPC(s.core, Inc16(Inc16(Inc16(s.core.r.pc)))))
    ensures x.r.tr[0] == First(s) && Word16(x.r.ta)
    ensures x.r.ta == Word(Second(s), Read(s.mem, Phys(s.core.r.mpr, Inc16(Inc16(s.core.r.pc)))))
  {
    hide Fold, Micros, Do, Phys, Plain, Word;
    TakeAsk(cs, 2, s, Held(q, s.mem), RTA);
    var q2 := Peek(TakeNext(q, RTA), s.mem);
    var c := TakeNext(q2, RTR(1));
    var join := Join(RTA, Reg(RTA), Reg(RTR(1)));
    Micros1(join, c);
    JoinTA1(c);
    WordIs(c.r.ta, c.r.tr[1]);
    x := c.(r := c.r.(ta := Word(c.r.ta, c.r.tr[1])));
    assert [Take(RTR(1)), INC_PC] + [Just(join)] == [Take(RTR(1)), INC_PC, Just(join)];
    TakeMore(cs, 3, s, Held(q2, s.mem), RTR(1), [Just(join)], IDLE, x);
  }
}
