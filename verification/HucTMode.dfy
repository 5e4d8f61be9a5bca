/**
 T mode. With T set, ORA, AND, EOR and ADC work on the zero-page byte X points at instead of A.
 The T-mode microcode is shown to simulate the ordinary microcode of the same instruction.
 */
module HucTMode {
  import opened BitOps
  import opened HucMachine
  import opened HucMicrocode
  import opened HucCertify
  import opened HucSwitchgen
  import opened HucText
  import opened HucExec
  import opened HucOperands

  /** The architectural part of the core: everything but the scratch registers and D. */
  datatype Arch = Arch(
    a: int, x: int, y: int, sp: int, pc: int, mpr: File8, mpl: int, p: Flags,
    addr: int, bm: bool, irq: Irq, clockDiv: int, timerOn: bool, fault: bool)

  function View(c: Core): Arch {
    Arch(c.r.a, c.r.x, c.r.y, c.r.sp, c.r.pc, c.r.mpr, c.r.mpl, c.r.p,
         c.addr, c.bm, c.irq, c.clockDiv, c.timerOn, c.fault)
  }

  /** A state in which an instruction may start. */
  predicate Ready(s: Cpu) {
    s.tcu == 0 && s.rd && !s.wr && SaneRegs(AT_BOUNDARY, s.core.r)
  }

  /** A := A op v, with the flags of the operation. */
  function Applied(c: Core, f: AluOp, v: byte): Core
    requires Fits(Byte, c.r.a)
  {
    var o := AluEval(f, c.r, v);
    c.(r := c.r.(a := o.res, p := o.p))
  }

  lemma AluDo(c: Core, f: AluOp, src: Src)
    requires TForm(f) && Fits(Byte, c.r.a) && Fits(Byte, Eval(c, src))
    ensures Do(Alu(f, RA, src), c) == Applied(c, f, Eval(c, src))
  {
    hide AluEval, Eval;
    assert c.r.(a := AsByte(c.r.a)) == c.r;
    OperandKept(f, c.r, Eval(c, src));
  }

  lemma OperandKept(f: AluOp, r: Regs, v: byte)
    requires TForm(f) && Fits(Byte, r.a)
    ensures AluEval(f, r, v).src == v
  {
    hide BitOr, BitAnd, BitXor, NZ, Overflow;
  }

  function Ended(c: Core): Core {
    EndCore(true, true, Fetch(c))
  }

  lemma BranchEndIsEnded(c: Core)
    ensures BranchEnd(c) == Ended(c)
  {
    hide Fetch;
  }

  lemma EndedForgets(c: Core, d: int, addr: int)
    ensures View(Ended(c.(d := d, addr := addr))) == View(Ended(c))
  {
    hide Phys;
  }

  // ----- Outside T mode -----

  /** The core when the arithmetic of a read form runs. */
  function Loaded(m: Mode, c: Core, mem: map<int, byte>): Core
    requires Word16(c.r.pc)
  {
    var a := Address(m, c, mem);
    var l := a.(d := Read(mem, a.addr));
    if m.Ind? then l.(r := l.r.(tr := l.r.tr[0 := l.d])) else l
  }

  predicate Plain(c: Cycle) {
    c.jump == Straight && c.post == [] && forall op <- c.pre :: op.Just?
  }

  lemma AddrPlain(m: Mode, pre: seq<Op>)
    requires forall op <- pre :: op.Just?
    ensures forall c <- AddrCases(m, pre) :: Plain(c)
  {
  }

  lemma EndingFits(cs: seq<Cycle>, k: nat, ops: seq<Op>, poll: bool, clearT: bool)
    requires k < |cs| && cs[k] == Ending(ops, poll, clearT)
    requires forall op <- ops :: op.Just? || (op.BrEnd? && !PinsBefore(cs, k).wr)
    ensures PinsFit(cs, k)
  {
  }

  lemma PlainFits(cs: seq<Cycle>, i: nat)
    requires i < |cs| && Plain(cs[i])
    ensures PinsFit(cs, i)
  {
  }

  /** An early exit is sound where WR is low. */
  lemma BranchFits(cs: seq<Cycle>, k: nat, ops: seq<Op>, c: Cond)
    requires k < |cs| && cs[k] == C(ops + [BrEnd(c), ADDR_PC], READ) && !PinsBefore(cs, k).wr
    requires forall op <- ops :: op.Just?
    ensures PinsFit(cs, k)
  {
  }

  lemma LastAsks(m: Mode)
    ensures var n := |AddrCases(m, [])|; n > 0 && AddrCases(m, [])[n - 1].pins == READ
  {
  }

  lemma ReadPinsOK(m: Mode, f: AluOp, dt: Reg)
    ensures PinsOK(ReadCode(m, f, dt))
  {
    hide AddrCases, EndOps, Plain, PinsFit;
    var cs := ReadCode(m, f, dt);
    var n := |AddrCases(m, [])|;
    var ops := (if m.Ind? then [Take(RTR(0))] else []) + [Just(Alu(f, dt, ReadSrc(m)))];
    AddrPlain(m, []);
    LastAsks(m);
    forall k | 0 <= k < |cs|
      ensures PinsFit(cs, k)
    {
      if k < n {
        assert cs[k] == AddrCases(m, [])[k];
        PlainFits(cs, k);
      } else if Splits(f) && k == n {
        assert cs[n - 1] == AddrCases(m, [])[n - 1];
        BranchFits(cs, k, ops, NotDecimal);
      } else {
        EndingFits(cs, k, if Splits(f) then [] else ops, true, true);
      }
    }
  }

  /** A case with an early exit. */
  lemma BranchTick(cs: seq<Cycle>, s: Cpu, ops: seq<Op>, cond: Cond, x: Core)
    requires 0 <= s.tcu < |cs| && cs[s.tcu] == C(ops + [BrEnd(cond), ADDR_PC], READ)
    requires (forall op <- ops :: op.Just?) && Micros(ops, Latched(s)) == x && Word16(x.r.pc) && !s.wr
    ensures RefTick(cs, s) ==
      if Holds(cond, x) then Cpu(BranchEnd(x), 0, true, false, s.mem)
      else Cpu(x.(addr := Phys(x.r.mpr, x.r.pc)), s.tcu + 1, true, false, s.mem)
  {
    hide Do, BranchEnd, Phys, Holds;
    RunMicros(ops, Latch(s));
    RunOpsAppend(ops, [BrEnd(cond), ADDR_PC], Go(Latch(s)));
    var s1 := Latch(s).(core := x);
    RunTwo(BrEnd(cond), ADDR_PC, Go(s1));
    AskPcDo(x);
  }

  lemma RunTwo(a: Op, b: Op, f: Flow)
    ensures RunOps([a, b], f) == Then(Then(f, a), b)
  {
    hide Step;
    assert [a, b] == [a] + [b];
    RunOpsAppend([a], [b], f);
    RunOne(a, f);
    RunOne(b, RunOps([a], f));
  }

  /** The statements that lead from the operand byte to the result. */
  function ReadOps(m: Mode, f: AluOp): seq<Op> {
    (if m.Ind? then [Take(RTR(0))] else []) + [Just(Alu(f, RA, ReadSrc(m)))]
  }

  lemma AddressKeeps(m: Mode, c: Core, mem: map<int, byte>)
    requires Word16(c.r.pc)
    ensures var a := Address(m, c, mem);
      && a == c.(d := a.d, addr := a.addr, r := c.r.(pc := a.r.pc, ta := a.r.ta, tr := a.r.tr))
      && Word16(a.r.pc) && a.r.tr[2] == c.r.tr[2]
  {
    hide Phys, ZeroPage, Word;
  }

  lemma ReadOpsRun(m: Mode, f: AluOp, c: Core, mem: map<int, byte>)
    requires TForm(f) && Word16(c.r.pc) && Fits(Byte, c.r.a)
    ensures var a := Address(m, c, mem); var v := Read(mem, a.addr);
      Micros(ReadOps(m, f), a.(d := v)) == Applied(Loaded(m, c, mem), f, v)
  {
    hide Do, Phys, AluEval, Address;
    AddressKeeps(m, c, mem);
    var a := Address(m, c, mem);
    var l := a.(d := Read(mem, a.addr));
    if m.Ind? {
      Micros2(Take(RTR(0)).m, Alu(f, RA, ReadSrc(m)), l);
      assert ReadOps(m, f) == [Take(RTR(0)), Just(Alu(f, RA, ReadSrc(m)))];
      TakeDo(l, RTR(0));
    } else {
      Micros1(Alu(f, RA, ReadSrc(m)), l);
      assert ReadOps(m, f) == [Just(Alu(f, RA, ReadSrc(m)))];
    }
    AluDo(Loaded(m, c, mem), f, ReadSrc(m));
  }

  /** Cycles a read form takes: its addressing, its last case, and one more for decimal ADC. */
  function ReadCycles(m: Mode, f: AluOp, s: Cpu): nat {
    |AddrCases(m, [])| + 1 + if f.ADC? && s.core.r.p.d then 1 else 0
  }

  /** What a read form leaves: the operand applied to A, and the next opcode on order. */
  function ReadView(m: Mode, f: AluOp, s: Cpu): Arch
    requires Word16(s.core.r.pc) && Fits(Byte, s.core.r.a)
  {
    var c := Latched(s);
    View(Ended(Applied(Loaded(m, c, s.mem), f, Read(s.mem, Address(m, c, s.mem).addr))))
  }

  predicate IsMode(m: Mode) {
    m.Zp? || m.Abso? || m.Ind? ==> IsIndex(m.inx)
  }

  lemma ReadStarts(m: Mode, f: AluOp, s: Cpu)
    requires Ready(s) && IsMode(m)
    ensures Starts(ReadCode(m, f, RA), m, s, [], Latched(s))
  {
    hide Phys;
    MicrosNone(Latched(s));
  }

  /** The read form up to its last case or two; `x` is the core after the arithmetic. */
  predicate AtArithmetic(m: Mode, f: AluOp, s: Cpu, u: Cpu, x: Core) {
    && u == Asked(u.core, |AddrCases(m, [])|, s.mem) && Word16(x.r.pc) && x.r.p.d == s.core.r.p.d
    && Micros(ReadOps(m, f), Latched(u)) == x
  }

  lemma ReadLoaded(m: Mode, f: AluOp, s: Cpu) returns (u: Cpu, x: Core)
    requires TForm(f) && Ready(s) && IsMode(m)
    ensures Within(ReadCode(m, f, RA), s, |AddrCases(m, [])|, u) && AtArithmetic(m, f, s, u, x)
    ensures View(Ended(x)) == ReadView(m, f, s)
  {
    hide Do, Phys, Address, AddrCases, RefTick, Fetch, EndOps, Starts, ReadCode, AluEval;
    var c := Latched(s);
    ReadStarts(m, f, s);
    AddressPhase(ReadCode(m, f, RA), m, s, [], c);
    AddressKeeps(m, c, s.mem);
    ReadOpsRun(m, f, c, s.mem);
    u := Asked(Address(m, c, s.mem), |AddrCases(m, [])|, s.mem);
    x := Applied(Loaded(m, c, s.mem), f, Read(s.mem, Address(m, c, s.mem).addr));
    AppliedKeeps(Loaded(m, c, s.mem), f, Read(s.mem, Address(m, c, s.mem).addr));
  }

  lemma ReadSplitEnd(m: Mode, s: Cpu, u: Cpu, x: Core) returns (t: Cpu)
    requires Ready(s) && AtArithmetic(m, ADC, s, u, x) && Within(ReadCode(m, ADC, RA), s, |AddrCases(m, [])|, u)
    ensures Completes(Compile(ReadCode(m, ADC, RA)), s, ReadCycles(m, ADC, s), t)
    ensures t.tcu == 0 && t.rd && !t.wr && t.mem == s.mem && View(t.core) == View(Ended(x))
  {
    hide Do, Phys, AddrCases, Compile, PinsOK, RefTick, Fetch, EndOps, View, Ended;
    var cs, n := ReadCode(m, ADC, RA), |AddrCases(m, [])|;
    ReadPinsOK(m, ADC, RA);
    BranchTick(cs, u, ReadOps(m, ADC), NotDecimal, x);
    BranchEndIsEnded(x);
    t := RefTick(cs, u);
    if s.core.r.p.d {
      WithinMore(cs, s, n, u);
      EndTick(cs, t, [], true, true);
      MicrosNone(Latched(t));
      var t1 := RefTick(cs, t);
      Completed(cs, s, n + 1, t, t1);
      EndedForgets(x, Latched(t).d, t.core.addr);
      EndedIs(Latched(t));
      t := t1;
    } else {
      Completed(cs, s, n, u, t);
    }
  }

  lemma EndedIs(c: Core)
    ensures Ended(c) == EndCore(true, true, Fetch(c))
  {
    hide Fetch;
  }

  lemma ReadWholeEnd(m: Mode, f: AluOp, s: Cpu, u: Cpu, x: Core) returns (t: Cpu)
    requires TForm(f) && !f.ADC?
    requires Ready(s) && AtArithmetic(m, f, s, u, x) && Within(ReadCode(m, f, RA), s, |AddrCases(m, [])|, u)
    ensures Completes(Compile(ReadCode(m, f, RA)), s, ReadCycles(m, f, s), t)
    ensures t.tcu == 0 && t.rd && !t.wr && t.mem == s.mem && View(t.core) == View(Ended(x))
  {
    hide Do, Phys, AddrCases, Compile, PinsOK, RefTick, Fetch, EndOps;
    var cs, n := ReadCode(m, f, RA), |AddrCases(m, [])|;
    ReadPinsOK(m, f, RA);
    EndTick(cs, u, ReadOps(m, f), true, true);
    t := RefTick(cs, u);
    Completed(cs, s, n, u, t);
  }

  /** A read form outside T mode, as emitted: how long it takes and what it leaves. */
  lemma ReadExec(m: Mode, f: AluOp, s: Cpu) returns (t: Cpu)
    requires TForm(f) && Ready(s) && IsMode(m)
    ensures Completes(Compile(ReadCode(m, f, RA)), s, ReadCycles(m, f, s), t)
    ensures t.tcu == 0 && t.rd && !t.wr && t.mem == s.mem && View(t.core) == ReadView(m, f, s)
  {
    hide ReadCode, Compile, AddrCases, AtArithmetic, View, Ended, ReadView;
    var u, x := ReadLoaded(m, f, s);
    if f.ADC? {
      t := ReadSplitEnd(m, s, u, x);
    } else {
      t := ReadWholeEnd(m, f, s, u, x);
    }
  }

  lemma AppliedKeeps(c: Core, f: AluOp, v: byte)
    requires Fits(Byte, c.r.a)
    ensures Applied(c, f, v).r.p.d == c.r.p.d && Applied(c, f, v).r.p.t == c.r.p.t && Applied(c, f, v).r.pc == c.r.pc
  {
    hide AluEval;
    AluKeeps(f, c.r, v);
  }

  lemma AluKeeps(f: AluOp, r: Regs, v: byte)
    requires Fits(Byte, r.a)
    ensures AluEval(f, r, v).p.d == r.p.d && AluEval(f, r, v).p.t == r.p.t
  {
    hide BitOr, BitAnd, BitXor, AddBinary, AddDecimal, SubDecimal, Compare, NZ, Bit7;
    if f.ADC? || f.SBC? {
      AddKeeps(r.a, v, r.p);
      AddKeeps(r.a, 255 - v, r.p);
    } else if f.CMP? || f.CPX? || f.CPY? {
      CompareKeeps(r.a, v, r.p);
      CompareKeeps(r.x, v, r.p);
      CompareKeeps(r.y, v, r.p);
    } else {
      NZKeeps();
    }
  }

  lemma NZKeeps()
    ensures forall p, v :: NZ(p, v).d == p.d && NZ(p, v).t == p.t
  {
    hide Bit7;
  }

  lemma AddKeeps(a: int, v: int, p: Flags)
    ensures AddBinary(a, v, p).p.d == p.d && AddBinary(a, v, p).p.t == p.t
    ensures AddDecimal(a, v, p).p.d == p.d && AddDecimal(a, v, p).p.t == p.t
    ensures SubDecimal(a, v, p).p.d == p.d && SubDecimal(a, v, p).p.t == p.t
  {
    hide NZ, Overflow;
    NZKeeps();
  }

  lemma CompareKeeps(r: int, v: int, p: Flags)
    ensures Compare(r, v, p).p.d == p.d && Compare(r, v, p).p.t == p.t
  {
    hide Bit7;
  }

  // ----- In T mode -----

  predicate SameButT(p: Flags, q: Flags) {
    p.(t := false) == q.(t := false)
  }

  /** Equal as far as the end of an instruction can tell, A and T aside. */
  predicate Alike(c: Core, e: Core) {
    && c.r.x == e.r.x && c.r.y == e.r.y && c.r.sp == e.r.sp && c.r.pc == e.r.pc
    && c.r.mpr == e.r.mpr && c.r.mpl == e.r.mpl && SameButT(c.r.p, e.r.p)
    && c.bm == e.bm && c.irq == e.irq && c.clockDiv == e.clockDiv && c.timerOn == e.timerOn && c.fault == e.fault
  }

  lemma AlikeFetch(c: Core, e: Core)
    requires Alike(c, e)
    ensures Alike(Fetch(c), Fetch(e)) && Fetch(c).addr == Fetch(e).addr && Fetch(e).r.a == e.r.a
  {
    hide Phys;
  }

  lemma AlikeEnded(c: Core, e: Core)
    requires Alike(c, e)
    ensures View(Ended(e)) == View(Ended(c)).(a := e.r.a)
  {
    hide Fetch;
    AlikeFetch(c, e);
  }

  /** The four operations do not mind which operand is in A, and only read C and D of the flags. */
  lemma AluSwap(f: AluOp, r: Regs, e: Regs, v: byte, w: byte)
    requires TForm(f) && r.a == v && e.a == w && SameButT(r.p, e.p)
    ensures AluEval(f, r, w).res == AluEval(f, e, v).res
    ensures SameButT(AluEval(f, r, w).p, AluEval(f, e, v).p)
  {
    hide BitOr, BitAnd, BitXor, AddBinary, AddDecimal, NZ, Overflow;
    if f.ADC? {
      AddSwap(v, w, r.p, e.p);
    } else {
      OrCommutes(v, w);
      AndCommutes(v, w);
      XorCommutes(v, w);
      NZSame(r.p, e.p, AluEval(f, r, w).res);
    }
  }

  lemma NZSame(p: Flags, q: Flags, v: int)
    requires SameButT(p, q)
    ensures SameButT(NZ(p, v), NZ(q, v))
  {
    hide Bit7;
  }

  lemma BinarySwaps(v: byte, w: byte, p: Flags)
    ensures AddBinary(v, w, p).res == AddBinary(w, v, p).res && AddBinary(v, w, p).p == AddBinary(w, v, p).p
  {
    hide NZ, Bit7;
    assert v + w + Bit(p.c) == w + v + Bit(p.c);
  }

  lemma DecimalSwaps(v: byte, w: byte, p: Flags)
    ensures AddDecimal(v, w, p).res == AddDecimal(w, v, p).res && AddDecimal(v, w, p).p == AddDecimal(w, v, p).p
  {
    hide NZ;
    assert v % 16 + w % 16 + Bit(p.c) == w % 16 + v % 16 + Bit(p.c);
    assert w / 16 * 16 + v / 16 * 16 == v / 16 * 16 + w / 16 * 16;
  }

  lemma NZBlind(p: Flags, v: int, on: bool)
    ensures NZ(p.(t := on), v) == NZ(p, v).(t := on)
  {
    hide Bit7;
  }

  lemma BinaryBlind(v: byte, w: byte, p: Flags, on: bool)
    ensures var o, o' := AddBinary(v, w, p), AddBinary(v, w, p.(t := on)); o'.res == o.res && o'.p == o.p.(t := on)
  {
    hide NZ, Overflow;
    NZBlind(p, AddBinary(v, w, p).res, on);
  }

  lemma DecimalBlind(v: byte, w: byte, p: Flags, on: bool)
    ensures var o, o' := AddDecimal(v, w, p), AddDecimal(v, w, p.(t := on)); o'.res == o.res && o'.p == o.p.(t := on)
  {
    hide NZ;
    assert Bit(p.(t := on).c) == Bit(p.c);
    NZBlind(p, AddDecimal(v, w, p).res, on);
  }

  /** Neither addition sees T. */
  lemma AddsSame(v: byte, w: byte, p: Flags, q: Flags)
    requires SameButT(p, q)
    ensures AddBinary(v, w, p).res == AddBinary(v, w, q).res && SameButT(AddBinary(v, w, p).p, AddBinary(v, w, q).p)
    ensures AddDecimal(v, w, p).res == AddDecimal(v, w, q).res && SameButT(AddDecimal(v, w, p).p, AddDecimal(v, w, q).p)
  {
    assert q == p.(t := q.t);
    hide AddBinary, AddDecimal;
    BinaryBlind(v, w, p, q.t);
    DecimalBlind(v, w, p, q.t);
  }

  /** Both additions commute, and do not see T. */
  lemma AddSwap(v: byte, w: byte, p: Flags, q: Flags)
    requires SameButT(p, q)
    ensures AddBinary(v, w, p).res == AddBinary(w, v, q).res && SameButT(AddBinary(v, w, p).p, AddBinary(w, v, q).p)
    ensures AddDecimal(v, w, p).res == AddDecimal(w, v, q).res && SameButT(AddDecimal(v, w, p).p, AddDecimal(w, v, q).p)
  {
    hide AddBinary, AddDecimal;
    BinarySwaps(v, w, p);
    DecimalSwaps(v, w, p);
    AddsSame(w, v, p, q);
  }

  lemma AluSame(f: AluOp, r: Regs, e: Regs, v: byte)
    requires TForm(f) && Fits(Byte, r.a) && r.a == e.a && SameButT(r.p, e.p)
    ensures AluEval(f, r, v).res == AluEval(f, e, v).res
    ensures SameButT(AluEval(f, r, v).p, AluEval(f, e, v).p)
  {
    hide BitOr, BitAnd, BitXor, AddBinary, AddDecimal, NZ;
    if f.ADC? {
      AddsSame(r.a, v, r.p, e.p);
    } else {
      NZSame(r.p, e.p, AluEval(f, r, v).res);
    }
  }

  /** Both operands fetched: `v` the instruction's, the zero-page one on order; A kept in TR[2]. */
  predicate AtSecond(m: Mode, s: Cpu, v: byte, pc: int, w: Cpu) {
    && w == Asked(w.core, |MemLoads(m)|, s.mem)
    && w.core.addr == ZeroPage(s.core.r.mpr, s.core.r.x)
    && w.core.r.tr[2] == s.core.r.a && w.core.r.pc == pc && w.core.r.p == s.core.r.p
    && Alike(w.core, s.core.(r := s.core.r.(pc := pc)))
    && (if m.Zp? then w.core.r.a == v else Get(w.core.r, MemSrc(m)) == v)
  }

  /** The instruction's operand and the PC behind it. */
  function Operand(m: Mode, s: Cpu): byte
    requires Word16(s.core.r.pc)
  {
    Read(s.mem, Address(m, Latched(s), s.mem).addr)
  }

  function Behind(m: Mode, s: Cpu): int
    requires Word16(s.core.r.pc)
  {
    Address(m, Latched(s), s.mem).r.pc
  }

  lemma SaveDo(c: Core)
    requires Fits(Byte, c.r.a)
    ensures Do(SAVE_A.m, c) == c.(r := c.r.(tr := c.r.tr[2 := c.r.a]))
  {
  }

  lemma ImmLoads(s: Cpu) returns (w: Cpu)
    requires Ready(s)
    ensures forall f :: Within(MemCode(Imm, f), s, 2, w)
    ensures AtSecond(Imm, s, Operand(Imm, s), Behind(Imm, s), w)
  {
    hide Do, Phys, ZeroPage, Micros, RefTick, MemCode, Within;
    var c := Latched(s);
    var b := Read(s.mem, Phys(c.r.mpr, c.r.pc));
    Micros1(SAVE_A.m, c);
    SaveDo(c);
    var c0 := c.(r := c.r.(tr := c.r.tr[2 := c.r.a]));
    var t1 := Asked(c0.(addr := Phys(c.r.mpr, c.r.pc)), 1, s.mem);
    var l1 := t1.core.(d := b);
    TakeNextMicros(l1, RTA);
    var c1 := TakeNext(l1, RTA);
    MicrosAppend([Take(RTA), INC_PC], [ASK_X], l1);
    Micros1(ASK_X.m, c1);
    AskDo(c1);
    assert [Take(RTA), INC_PC] + [ASK_X] == [Take(RTA), INC_PC, ASK_X];
    assert [SAVE_A] + [ADDR_PC] == [SAVE_A, ADDR_PC];
    var c2 := c1.(addr := ZeroPage(c.r.mpr, c.r.x));
    w := Asked(c2, 2, s.mem);
    forall f
      ensures Within(MemCode(Imm, f), s, 2, w)
    {
      var cs := MemCode(Imm, f);
      MemCases(Imm, f);
      WithinNone(cs, s);
      AskPcTick(cs, s, [SAVE_A], c0);
      WithinMore(cs, s, 0, s);
      StraightTick(cs, t1, [Take(RTA), INC_PC, ASK_X], READ, c2);
      WithinMore(cs, s, 1, t1);
    }
  }

  /** MemCode case by case. */
  lemma MemCases(m: Mode, f: AluOp)
    ensures var cs := MemCode(m, f); var n := |MemLoads(m)|;
      && |cs| == n + (if f.ADC? then 4 else 3)
      && (forall k :: 0 <= k < n ==> cs[k] == MemLoads(m)[k])
      && cs[n] == Cycle([Take(if m.Zp? then RTR(0) else RA), Just(Alu(f, RA, Reg(MemSrc(m))))],
                        if f.ADC? then Skip(NotDecimal) else Straight, IDLE, [])
      && (f.ADC? ==> cs[n + 1] == C([], IDLE))
      && cs[|cs| - 2] == C([ASK_X, Just(Out(Reg(RA))), RESTORE_A], WRITE)
      && cs[|cs| - 1] == Ending([], true, true)
      && n >= 2 && cs[0] == MemLoads(m)[0] && cs[1] == MemLoads(m)[1]
  {
    hide AddrCases, EndOps;
    AddrSome(m);
  }

  lemma AddrSome(m: Mode)
    ensures |AddrCases(m, [SAVE_A])| >= 1 && |AddrCases(m, [SAVE_A])| == |AddrCases(m, [])|
    ensures |MemLoads(m)| == |AddrCases(m, [])| + 1
  {
  }

  lemma FarLoads(m: Mode, f: AluOp, s: Cpu) returns (w: Cpu)
    requires Ready(s) && IsMode(m) && !m.Imm?
    ensures Within(MemCode(m, f), s, |MemLoads(m)|, w)
    ensures AtSecond(m, s, Operand(m, s), Behind(m, s), w)
  {
    hide Do, Phys, ZeroPage, Micros, RefTick, MemCode, Within, AddrCases, Address;
    var cs, c, n := MemCode(m, f), Latched(s), |AddrCases(m, [SAVE_A])|;
    MemCases(m, f);
    AddrSome(m);
    Micros1(SAVE_A.m, c);
    SaveDo(c);
    var c0 := c.(r := c.r.(tr := c.r.tr[2 := c.r.a]));
    AddressPhase(cs, m, s, [SAVE_A], c0);
    AddressKeeps(m, c0, s.mem);
    AddressKeeps(m, c, s.mem);
    AddressOf(m, c, c0, s.mem);
    var u := Asked(Address(m, c0, s.mem), n, s.mem);
    var g := if m.Zp? then RA else MemSrc(m);
    var l := u.core.(d := Operand(m, s));
    Micros2(Take(g).m, ASK_X.m, l);
    TakeDo(l, g);
    var c1 := l.(r := Set(l.r, g, l.d));
    AskDo(c1);
    StraightTick(cs, u, [Take(g), ASK_X], READ, c1.(addr := ZeroPage(c1.r.mpr, c1.r.x)));
    WithinMore(cs, s, n, u);
    w := RefTick(cs, u);
  }

  /** The address phase does not depend on A, T or TR. */
  lemma AddressOf(m: Mode, c: Core, e: Core, mem: map<int, byte>)
    requires Word16(c.r.pc) && e.r.pc == c.r.pc && e.r.mpr == c.r.mpr && e.r.x == c.r.x && e.r.y == c.r.y
    requires IsMode(m)
    ensures Address(m, e, mem).addr == Address(m, c, mem).addr && Address(m, e, mem).r.pc == Address(m, c, mem).r.pc
  {
    hide Phys, ZeroPage, Word;
  }

  /** The core that stores: the result in A, the old A in TR[2]. */
  lemma SecondApplied(m: Mode, f: AluOp, s: Cpu, v: byte, w: Cpu) returns (x: Core)
    requires TForm(f) && Ready(s) && Word16(w.core.r.pc) && AtSecond(m, s, v, w.core.r.pc, w)
    ensures x == Micros([Take(if m.Zp? then RTR(0) else RA), Just(Alu(f, RA, Reg(MemSrc(m))))], Latched(w))
    ensures var o := AluEval(f, s.core.r.(a := Read(s.mem, w.core.addr)), v);
      && x.r.a == o.res && x.r.tr[2] == s.core.r.a && x.r.p.d == s.core.r.p.d
      && Alike(x, s.core.(r := s.core.r.(pc := w.core.r.pc, p := o.p)))
  {
    hide Do, Phys, ZeroPage, Micros, AluEval;
    var l := Latched(w);
    var g := if m.Zp? then RTR(0) else RA;
    var b := Read(s.mem, w.core.addr);
    Micros2(Take(g).m, Alu(f, RA, Reg(MemSrc(m))), l);
    TakeDo(l, g);
    var l1 := l.(r := Set(l.r, g, b));
    AluDo(l1, f, Reg(MemSrc(m)));
    x := Do(Alu(f, RA, Reg(MemSrc(m))), l1);
    var r := s.core.r.(a := b);
    if m.Zp? {
      AluSwap(f, l1.r, r, v, b);
      AppliedKeeps(l1, f, b);
    } else {
      AluSame(f, l1.r, r, v);
      AppliedKeeps(l1, f, v);
    }
  }

  /** A case that skips the next one when its condition holds. */
  lemma SkipTick(cs: seq<Cycle>, s: Cpu, ops: seq<Op>, cond: Cond, x: Core)
    requires 0 <= s.tcu < |cs| && cs[s.tcu] == Cycle(ops, Skip(cond), IDLE, [])
    requires (forall op <- ops :: op.Just?) && Micros(ops, Latched(s)) == x
    ensures RefTick(cs, s) == Cpu(x, s.tcu + (if Holds(cond, x) then 2 else 1), false, false, s.mem)
  {
    hide Do, Holds;
    RunMicros(ops, Latch(s));
  }

  lemma StoreDo(c: Core)
    requires Fits(Byte, c.r.tr[2])
    ensures Do(Out(Reg(RA)), c) == c.(d := c.r.a)
    ensures Do(RESTORE_A.m, c) == c.(r := c.r.(a := c.r.tr[2]))
  {
  }

  /** Cycles of a T-mode form. */
  function MemCycles(m: Mode, f: AluOp, s: Cpu): nat {
    ReadCycles(m, f, s) + 3
  }

  /** The last two cases, from an idle state with the result in A. */
  lemma StoreEnd(m: Mode, f: AluOp, s: Cpu, n: nat, u: Cpu) returns (t: Cpu)
    requires Ready(s) && PinsOK(MemCode(m, f)) && Within(MemCode(m, f), s, n, u)
    requires u.tcu == |MemCode(m, f)| - 2 && !u.rd && !u.wr && Fits(Byte, u.core.r.a) && Fits(Byte, u.core.r.tr[2])
    ensures Completes(Compile(MemCode(m, f)), s, n + 2, t)
    ensures t.tcu == 0 && t.rd && !t.wr && t.mem == u.mem[ZeroPage(u.core.r.mpr, u.core.r.x) := u.core.r.a]
    ensures View(t.core) == View(Ended(u.core)).(a := u.core.r.tr[2])
  {
    hide Do, Phys, ZeroPage, Micros, RefTick, MemCode, Within, PinsOK, Compile, Fetch, EndOps, Completes;
    var cs, c := MemCode(m, f), u.core;
    MemCases(m, f);
    Micros3(ASK_X.m, Out(Reg(RA)), RESTORE_A.m, c);
    AskDo(c);
    var c1 := c.(addr := ZeroPage(c.r.mpr, c.r.x));
    StoreDo(c1);
    StoreDo(c1.(d := c.r.a));
    var y := c1.(d := c.r.a, r := c.r.(a := c.r.tr[2]));
    StraightTick(cs, u, [ASK_X, Just(Out(Reg(RA))), RESTORE_A], WRITE, y);
    var t1 := RefTick(cs, u);
    WithinMore(cs, s, n, u);
    EndTick(cs, t1, [], true, true);
    MicrosNone(y);
    t := RefTick(cs, t1);
    Completed(cs, s, n + 1, t1, t);
    EndedIs(y);
    AlikeEnded(c, y);
  }

  lemma MemPinsOK(m: Mode, f: AluOp)
    ensures PinsOK(MemCode(m, f))
  {
    hide AddrCases, EndOps;
    var cs := MemCode(m, f);
    MemCases(m, f);
    LoadsPlain(m);
    forall k | 0 <= k < |cs|
      ensures PinsFit(cs, k)
    {
      if k < |MemLoads(m)| {
        assert Plain(MemLoads(m)[k]);
      } else if k == |cs| - 1 {
        EndingFits(cs, k, [], true, true);
      }
    }
  }

  lemma LoadsPlain(m: Mode)
    ensures forall c <- MemLoads(m) :: Plain(c)
  {
    hide AddrCases;
    AddrPlain(m, [SAVE_A]);
  }

  /** The arithmetic case, and the idle one that only decimal ADC does not skip. */
  lemma MemApply(m: Mode, f: AluOp, s: Cpu, w: Cpu) returns (u: Cpu, x: Core)
    requires TForm(f) && Ready(s) && Within(MemCode(m, f), s, |MemLoads(m)|, w)
    requires Word16(w.core.r.pc) && AtSecond(m, s, Operand(m, s), w.core.r.pc, w)
    ensures u == Cpu(u.core, |MemCode(m, f)| - 2, false, false, s.mem) && View(Ended(u.core)) == View(Ended(x))
    ensures u.core.r.a == x.r.a && u.core.r.tr == x.r.tr && u.core.r.mpr == x.r.mpr && u.core.r.x == x.r.x
    ensures Within(MemCode(m, f), s, MemCycles(m, f, s) - 2, u)
    ensures var o := AluEval(f, s.core.r.(a := Read(s.mem, w.core.addr)), Operand(m, s));
      && x.r.a == o.res && x.r.tr[2] == s.core.r.a
      && Alike(x, s.core.(r := s.core.r.(pc := w.core.r.pc, p := o.p)))
  {
    hide Do, Phys, ZeroPage, Micros, RefTick, MemCode, Within, AddrCases, Address, View, Ended, AluEval;
    var cs, n := MemCode(m, f), |MemLoads(m)|;
    MemCases(m, f);
    AddrSome(m);
    x := SecondApplied(m, f, s, Operand(m, s), w);
    var ops := [Take(if m.Zp? then RTR(0) else RA), Just(Alu(f, RA, Reg(MemSrc(m))))];
    WithinNone(cs, s);
    if f.ADC? {
      SkipTick(cs, w, ops, NotDecimal, x);
      u := RefTick(cs, w);
      WithinMore(cs, s, n, w);
      if x.r.p.d {
        IdleTick(cs, u);
        WithinMore(cs, s, n + 1, u);
        u := RefTick(cs, u);
      }
    } else {
      StraightTick(cs, w, ops, IDLE, x);
      u := RefTick(cs, w);
      WithinMore(cs, s, n, w);
    }
  }

  /** A T-mode form as emitted. */
  lemma MemExec(m: Mode, f: AluOp, s: Cpu) returns (t: Cpu)
    requires TForm(f) && Ready(s) && IsMode(m)
    ensures Completes(Compile(MemCode(m, f)), s, MemCycles(m, f, s), t)
    ensures t.tcu == 0 && t.rd && !t.wr
    ensures var b := Read(s.mem, ZeroPage(s.core.r.mpr, s.core.r.x));
      var o := AluEval(f, s.core.r.(a := b), Operand(m, s));
      && t.mem == s.mem[ZeroPage(s.core.r.mpr, s.core.r.x) := AsByte(o.res)]
      && View(t.core) == View(Ended(s.core.(r := s.core.r.(pc := Behind(m, s), p := o.p)))).(a := s.core.r.a)
  {
    hide Phys, ZeroPage, MemCode, Within, AddrCases, Address, PinsOK, Compile, Completes, View, Ended, AluEval, Operand;
    MemPinsOK(m, f);
    AddressKeeps(m, Latched(s), s.mem);
    var w: Cpu;
    if m.Imm? {
      w := ImmLoads(s);
    } else {
      w := FarLoads(m, f, s);
    }
    var u, x := MemApply(m, f, s, w);
    var r := s.core.r.(a := Read(s.mem, w.core.addr));
    ResultIsByte(f, r, Operand(m, s));
    t := StoreEnd(m, f, s, MemCycles(m, f, s) - 2, u);
    AlikeEnded(x, s.core.(r := s.core.r.(pc := w.core.r.pc, p := AluEval(f, r, Operand(m, s)).p)));
  }

  lemma ResultIsByte(f: AluOp, r: Regs, v: byte)
    requires Fits(Byte, r.a)
    ensures Fits(Byte, AluEval(f, r, v).res)
  {
    AluIsByte(f, r, v);
  }

  // ----- The simulation -----

  /** The state the ordinary form is compared from: A holds the zero-page byte, T is clear. */
  function Untagged(s: Cpu): Cpu {
    s.(core := s.core.(r := s.core.r.(a := Read(s.mem, ZeroPage(s.core.r.mpr, s.core.r.x)),
      p := s.core.r.p.(t := false))))
  }

  lemma UntaggedOperand(m: Mode, s: Cpu)
    requires Ready(s) && IsMode(m)
    ensures Ready(Untagged(s)) && Operand(m, Untagged(s)) == Operand(m, s) && Behind(m, Untagged(s)) == Behind(m, s)
  {
    hide ZeroPage, Phys, Address;
    AddressOf(m, Latched(s), Latched(Untagged(s)), s.mem);
  }

  lemma LoadedAlike(m: Mode, s: Cpu)
    requires Ready(s) && IsMode(m)
    ensures var l := Loaded(m, Latched(s), s.mem);
      l.r.a == s.core.r.a && l.r.p == s.core.r.p && Alike(l, s.core.(r := s.core.r.(pc := Behind(m, s))))
  {
    hide Address, Phys;
    AddressKeeps(m, Latched(s), s.mem);
  }

  lemma AlikeApplied(f: AluOp, l: Core, e: Core, v: byte, p: Flags)
    requires Fits(Byte, l.r.a) && Alike(l, e) && SameButT(AluEval(f, l.r, v).p, p)
    ensures Alike(Applied(l, f, v), e.(r := e.r.(p := p))) && Applied(l, f, v).r.a == AluEval(f, l.r, v).res
  {
    hide AluEval;
  }

  lemma AlikeTwice(c: Core, d: Core, e: Core)
    requires Alike(c, d) && Alike(d, e)
    ensures Alike(c, e) && Alike(e, c)
  {
  }

  lemma EndedKeepsA(c: Core)
    ensures Ended(c).r.a == c.r.a && View(Ended(c)).a == c.r.a
  {
    hide Phys;
  }

  /** Both forms end their instruction with the same core, A and the stored byte aside. */
  lemma EndsMeet(m: Mode, f: AluOp, s: Cpu)
    requires TForm(f) && Ready(s) && IsMode(m)
    ensures Ready(Untagged(s))
    ensures var b := Read(s.mem, ZeroPage(s.core.r.mpr, s.core.r.x));
      var o := AluEval(f, s.core.r.(a := b), Operand(m, s));
      && View(Ended(s.core.(r := s.core.r.(pc := Behind(m, s), p := o.p)))) ==
        ReadView(m, f, Untagged(s)).(a := s.core.r.a)
      && ReadView(m, f, Untagged(s)).a == o.res
  {
    hide Address, Phys, ZeroPage, AluEval, Ended, View, Applied, Loaded, Alike;
    var s0 := Untagged(s);
    UntaggedOperand(m, s);
    LoadedAlike(m, s0);
    var l, v := Loaded(m, Latched(s0), s0.mem), Operand(m, s);
    var b := Read(s.mem, ZeroPage(s.core.r.mpr, s.core.r.x));
    AluSame(f, l.r, s.core.r.(a := b), v);
    var p := AluEval(f, s.core.r.(a := b), v).p;
    var e := s0.core.(r := s0.core.r.(pc := Behind(m, s)));
    AlikeApplied(f, l, e, v, p);
    var e' := s.core.(r := s.core.r.(pc := Behind(m, s), p := p));
    SameAsUntagged(s, Behind(m, s), p);
    AlikeTwice(Applied(l, f, v), e.(r := e.r.(p := p)), e');
    AlikeEnded(Applied(l, f, v), e');
    EndedKeepsA(Applied(l, f, v));
  }

  lemma SameAsUntagged(s: Cpu, pc: int, p: Flags)
    ensures var e := Untagged(s).core.(r := Untagged(s).core.r.(pc := pc));
      Alike(e.(r := e.r.(p := p)), s.core.(r := s.core.r.(pc := pc, p := p)))
  {
  }

  /**
   T mode simulates ordinary mode, for each operation in each operand form: started with T set, the
   T-mode code leaves in the zero-page byte X points at what the ordinary code leaves in A when
   started with that byte in A. Everything else the ordinary code leaves, flags included, is the
   same, A is what it was, nothing else is written, and it takes three cycles more.
   */
  lemma TModeSimulates(m: Mode, f: AluOp, s: Cpu) returns (n: nat, t0: Cpu, t1: Cpu)
    requires TForm(f) && Ready(s) && IsMode(m)
    ensures Completes(Compile(ReadCode(m, f, RA)), Untagged(s), n, t0)
    ensures Completes(Compile(MemCode(m, f)), s, n + 3, t1)
    ensures n == |AddrCases(m, [])| + 1 + (if f.ADC? && s.core.r.p.d then 1 else 0)
    ensures View(t1.core) == View(t0.core).(a := s.core.r.a)
    ensures t0.mem == s.mem && Fits(Byte, t0.core.r.a)
    ensures t1.mem == s.mem[ZeroPage(s.core.r.mpr, s.core.r.x) := t0.core.r.a]
    ensures t0.tcu == t1.tcu == 0 && t0.rd && t1.rd && !t0.wr && !t1.wr && !t1.core.r.p.t
  {
    hide ReadCode, MemCode, Compile, AddrCases, Address, AluEval, Ended, ZeroPage, Completes, ReadView;
    EndsMeet(m, f, s);
    t0 := ReadExec(m, f, Untagged(s));
    t1 := MemExec(m, f, s);
    n := ReadCycles(m, f, s);
    ResultIsByte(f, s.core.r.(a := Read(s.mem, ZeroPage(s.core.r.mpr, s.core.r.x))), Operand(m, s));
    ReadViewClearsT(m, f, Untagged(s));
  }

  lemma ReadViewClearsT(m: Mode, f: AluOp, s: Cpu)
    requires Word16(s.core.r.pc) && Fits(Byte, s.core.r.a)
    ensures !ReadView(m, f, s).p.t
  {
    hide Address, AluEval, Phys, Applied;
    AddressKeeps(m, Latched(s), s.mem);
    EndedClearsT(Applied(Loaded(m, Latched(s), s.mem), f, Read(s.mem, Address(m, Latched(s), s.mem).addr)));
  }

  lemma EndedClearsT(c: Core)
    ensures !Ended(c).r.p.t
  {
    hide Fetch;
  }
}
