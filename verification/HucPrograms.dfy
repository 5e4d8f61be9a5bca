/**
 Multi-byte arithmetic as programs: LDA, ADC or SBC, STA for each byte, in zero page or with absolute
 addresses, run from memory, leave the sum or the difference of whole numbers in memory, with interrupts
 in between or without.
 */
module HucPrograms {
  import opened BitOps
  import opened Common
  import opened HucMachine
  import opened HucCertify
  import opened HucText
  import opened HucTable
  import opened HucOperands
  import opened HucTMode
  import opened HucBlockMove
  import opened HucRun
  import opened HucIsa
  import opened HucRefine
  import opened HucServices
  import opened HucArithmetic

  // ----- One instruction -----

  /** Zero-page or absolute operands. */
  datatype Form = Short | Long

  function Size(form: Form): nat {
    if form.Short? then 2 else 3
  }

  /** About to fetch the instruction at q, T clear, no interrupt pending. */
  predicate AtCode(m: Machine, q: int) {
    Stands(m) && Word16(q) && m.v.pc == Inc16(q) && !m.v.p.t && !m.v.irq.pending
  }

  function Code(m: Machine, q: int): byte {
    if Word16(q) then Read(m.mem, Phys(m.v.mpr, q)) else 0
  }

  function Operand(m: Machine, form: Form, q: int): nat {
    Code(m, Plus16(q, 1)) + if form.Long? then 256 * Code(m, Plus16(q, 2)) else 0
  }

  /** The byte an operand names. */
  function Place(mpr: File8, form: Form, v: int): int {
    if form.Short? then ZeroPage(mpr, v) else if Word16(v) then Phys(mpr, v) else 0
  }

  function ModeFor(form: Form): Mode {
    if form.Short? then Zp(None) else Abso(None)
  }

  predicate Loads(f: AluOp) {
    f == LD || f == ADC || f == SBC
  }

  function Opcode(form: Form, f: AluOp): byte {
    match f
    case LD => if form.Short? then 0xA5 else 0xAD
    case ADC => if form.Short? then 0x65 else 0x6D
    case _ => if form.Short? then 0xE5 else 0xED
  }

  function StoreOpcode(form: Form): byte {
    if form.Short? then 0x85 else 0x8D
  }

  lemma ShortInstructions()
    ensures InstrOf(0xA5, false) == IRead(Zp(None), LD, RA, false) && InstrOf(0x85, false) == IWrite(Zp(None), Reg(RA))
    ensures InstrOf(0x65, false) == IRead(Zp(None), ADC, RA, false)
    ensures InstrOf(0xE5, false) == IRead(Zp(None), SBC, RA, false)
  {
  }

  lemma LongInstructions()
    ensures InstrOf(0xAD, false) == IRead(Abso(None), LD, RA, false)
    ensures InstrOf(0x8D, false) == IWrite(Abso(None), Reg(RA))
    ensures InstrOf(0x6D, false) == IRead(Abso(None), ADC, RA, false)
    ensures InstrOf(0xED, false) == IRead(Abso(None), SBC, RA, false)
  {
  }

  lemma TheInstructions(form: Form, f: AluOp)
    requires Loads(f)
    ensures InstrOf(Opcode(form, f), false) == IRead(ModeFor(form), f, RA, false)
    ensures InstrOf(StoreOpcode(form), false) == IWrite(ModeFor(form), Reg(RA))
  {
    hide InstrOf;
    ShortInstructions();
    LongInstructions();
  }

  function RegsOf(m: Machine): Regs {
    Bare(m).core.r
  }

  lemma RegsAre(m: Machine)
    ensures RegsOf(m).p == m.v.p && RegsOf(m).a == m.v.a && RegsOf(m).mpr == m.v.mpr
  {
  }

  /** Behind the instruction at q, the next opcode on order. */
  function Moved(m: Machine, form: Form, q: int): Arch {
    var q' := Plus16(q, Size(form));
    m.v.(pc := Inc16(q'), addr := Phys(m.v.mpr, q'))
  }

  lemma OperandAddress(m: Machine, c: Core, form: Form, q: int)
    requires AtCode(m, q) && c.r == RegsOf(m)
    ensures var a := Address(ModeFor(form), c, m.mem);
      a.addr == Place(m.v.mpr, form, Operand(m, form, q)) && a.r.pc == Plus16(q, Size(form))
  {
    hide Phys, ZeroPage, Stands, BitOr;
    WordIs(Code(m, Plus16(q, 1)), Code(m, Plus16(q, 2)));
  }

  lemma CodeBoundary(m: Machine, q: int)
    requires AtCode(m, q)
    ensures Stands(m) && !m.v.irq.pending && !m.v.p.t && Word16(q) && Word16(m.v.pc)
    ensures Read(m.mem, m.v.addr) == Code(m, q) && SaneRegs(AT_BOUNDARY, RegsOf(m)) && !m.v.fault
  {
    hide Phys;
  }

  /** The state an instruction starts in looks like the machine. */
  predicate Starts(m: Machine, l: Lines, s: Cpu) {
    s == Bare(m).(core := Bare(m).core.(irq := s.core.irq)) && s.core.irq == m.v.irq.(raised := l)
  }

  lemma ChosenStarts(m: Machine, l: Lines, q: int)
    requires AtCode(m, q)
    ensures var (i, s) := Chosen(m, l);
      && i == InstrOf(Code(m, q), false) && Starts(m, l, s) && Ready(s) && Proper(i)
      && Next(m, l).0 == Machine(View(Closing(i, Result(i, s).c)), Result(i, s).mem)
  {
    hide AtCode, Next, Chosen, Closing, Proper, View, InstrOf, Stands, Result;
    CodeBoundary(m, q);
    ChosenAt(m, l);
    NextIs(m, l);
    ChosenRaised(m, l);
  }

  lemma ChosenRaised(m: Machine, l: Lines)
    requires !m.v.irq.pending
    ensures Chosen(m, l).1.core.irq == m.v.irq.(raised := l)
  {
    hide InstrOf;
  }

  /** The core of `s` with A and P as given, behind the instruction at q. */
  function Behind(s: Cpu, form: Form, q: int, a: int, p: Flags): Core {
    s.core.(r := s.core.r.(a := a, p := p, pc := Plus16(q, Size(form))))
  }

  lemma ReadResult(m: Machine, l: Lines, s: Cpu, q: int, form: Form, f: AluOp)
    requires AtCode(m, q) && Loads(f) && Starts(m, l, s) && Ready(s)
    ensures var i, v := IRead(ModeFor(form), f, RA, false), Read(m.mem, Place(m.v.mpr, form, Operand(m, form, q)));
      var o := AluEval(f, RegsOf(m), v);
      Result(i, s).c == Behind(s, form, q, o.res, o.p) && Result(i, s).mem == m.mem
  {
    hide AtCode, AluEval, Address, Place, Operand, ModeFor;
    OperandAddress(m, s.core, form, q);
    assert IsMode(ModeFor(form)) by { ModeIsProper(form); }
    AluSame(f, RegsOf(m), s.core.r);
  }

  lemma ModeIsProper(form: Form)
    ensures IsMode(ModeFor(form)) && !ModeFor(form).Imm?
  {
  }

  lemma AluSame(f: AluOp, r: Regs, q: Regs)
    requires r == q
    ensures Fits(Byte, r.a) ==> forall v :: AluEval(f, r, v) == AluEval(f, q, v)
  {
  }

  lemma ClosedView(i: Instr, e: Core)
    requires PollsAtEnd(i) && ClearsAtEnd(i) && Word16(e.r.pc) && !e.r.p.t
    ensures var v := View(Closing(i, e));
      && v == View(e).(pc := Inc16(e.r.pc), addr := Phys(e.r.mpr, e.r.pc), irq := v.irq)
      && v.irq.pending == (AnyLine(e.irq.enabled, e.irq.raised) && !e.r.p.i)
  {
    hide Phys;
  }

  /** The end of an instruction that leads on. */
  lemma EndsAt(m: Machine, l: Lines, s: Cpu, i: Instr, q: int, form: Form, a: int, p: Flags, mem: map<int, byte>)
    requires AtCode(m, q) && Starts(m, l, s) && PollsAtEnd(i) && ClearsAtEnd(i) && Fits(Byte, a)
    requires p.i == m.v.p.i && !p.t
    ensures var n := Machine(View(Closing(i, Behind(s, form, q, a, p))), mem);
      && n.v == Moved(m, form, q).(a := a, p := p, irq := n.v.irq)
      && (m.v.p.i || l == QUIET ==> AtCode(n, Plus16(q, Size(form))))
  {
    hide Phys, Closing, Stands;
    var e := Behind(s, form, q, a, p);
    ClosedView(i, e);
    var n := Machine(View(Closing(i, e)), mem);
    if m.v.p.i || l == QUIET {
      StandsAt(m, n, q, Plus16(q, Size(form)));
    }
  }

  lemma StandsAt(m: Machine, n: Machine, q: int, q': int)
    requires AtCode(m, q) && Word16(q') && Fits(Byte, n.v.a) && !n.v.p.t && !n.v.irq.pending
    requires n.v == m.v.(a := n.v.a, p := n.v.p, pc := Inc16(q'), addr := Phys(m.v.mpr, q'), irq := n.v.irq)
    ensures AtCode(n, q')
  {
    hide Phys;
    AddressesFit(m.v.mpr, q');
    BackOne(q');
  }

  lemma BackOne(q: int)
    requires Word16(q)
    ensures Dec16(Inc16(q)) == q
  {
  }

  lemma FlagsKept(f: AluOp, r: Regs, v: byte)
    requires Fits(Byte, r.a) && Loads(f)
    ensures var o := AluEval(f, r, v); o.p.i == r.p.i && o.p.t == r.p.t && o.p.d == r.p.d && Fits(Byte, o.res)
  {
    hide NZ, Overflow;
    NZKeepsI();
  }

  lemma NZKeepsI()
    ensures forall p, v :: NZ(p, v).i == p.i && NZ(p, v).t == p.t && NZ(p, v).d == p.d
  {
    hide Bit7;
  }

  /** LDA, ADC or SBC at q. */
  lemma ReadNext(m: Machine, l: Lines, q: int, form: Form, f: AluOp)
    requires AtCode(m, q) && Loads(f) && Code(m, q) == Opcode(form, f)
    ensures Fits(Byte, m.v.a)
    ensures var n, o := Next(m, l).0, AluEval(f, RegsOf(m), Read(m.mem, Place(m.v.mpr, form, Operand(m, form, q))));
      && n == Machine(Moved(m, form, q).(a := o.res, p := o.p, irq := n.v.irq), m.mem)
      && (m.v.p.i || l == QUIET ==> AtCode(n, Plus16(q, Size(form))))
    ensures Chosen(m, l).0 != IBranchSub
  {
    hide AtCode, AluEval, Stands, Next, Chosen, Place, Operand, Code, Closing, Proper, View, InstrOf, Result, Moved,
      Behind, Starts, ModeFor;
    CodeBoundary(m, q);
    ChosenStarts(m, l, q);
    TheInstructions(form, f);
    var (i, s) := Chosen(m, l);
    ReadResult(m, l, s, q, form, f);
    var v := Read(m.mem, Place(m.v.mpr, form, Operand(m, form, q)));
    FlagsKept(f, RegsOf(m), v);
    var o := AluEval(f, RegsOf(m), v);
    EndsAt(m, l, s, i, q, form, o.res, o.p, m.mem);
  }

  lemma WriteResult(m: Machine, l: Lines, s: Cpu, q: int, form: Form)
    requires AtCode(m, q) && Starts(m, l, s) && Ready(s)
    ensures var i := IWrite(ModeFor(form), Reg(RA));
      && Result(i, s).c == Behind(s, form, q, m.v.a, m.v.p)
      && Result(i, s).mem == m.mem[Place(m.v.mpr, form, Operand(m, form, q)) := AsByte(m.v.a)]
  {
    hide AtCode, Address, Place, Operand, ModeFor;
    OperandAddress(m, s.core, form, q);
    ModeIsProper(form);
  }

  /** STA at q. */
  lemma WriteNext(m: Machine, l: Lines, q: int, form: Form)
    requires AtCode(m, q) && Code(m, q) == StoreOpcode(form)
    ensures var n := Next(m, l).0;
      && n == Machine(Moved(m, form, q).(irq := n.v.irq),
                      m.mem[Place(m.v.mpr, form, Operand(m, form, q)) := AsByte(m.v.a)])
      && (m.v.p.i || l == QUIET ==> AtCode(n, Plus16(q, Size(form))))
    ensures Chosen(m, l).0 != IBranchSub
  {
    hide AtCode, Stands, Next, Chosen, Place, Operand, Code, Closing, Proper, View, InstrOf, Result, Behind, Starts,
      ModeFor;
    CodeBoundary(m, q);
    ChosenStarts(m, l, q);
    TheInstructions(form, LD);
    var (i, s) := Chosen(m, l);
    WriteResult(m, l, s, q, form);
    EndsAt(m, l, s, i, q, form, m.v.a, m.v.p,
           m.mem[Place(m.v.mpr, form, Operand(m, form, q)) := AsByte(m.v.a)]);
  }

  // ----- One byte of a number -----

  predicate Instruction(m: Machine, q: int, form: Form, op: byte, v: nat) {
    Code(m, q) == op && Operand(m, form, q) == v
  }

  /** LDA x; ADC y or SBC y; STA z at q. */
  predicate ByteCode(m: Machine, q: int, form: Form, f: AluOp, x: nat, y: nat, z: nat) {
    && Instruction(m, q, form, Opcode(form, LD), x)
    && Instruction(m, Plus16(q, Size(form)), form, Opcode(form, f), y)
    && Instruction(m, Plus16(q, 2 * Size(form)), form, StoreOpcode(form), z)
  }

  function Held(m: Machine, form: Form, v: int): byte {
    Read(m.mem, Place(m.v.mpr, form, v))
  }

  lemma SameInstruction(m: Machine, n: Machine, q: int, form: Form, op: byte, v: nat)
    requires n.mem == m.mem && n.v.mpr == m.v.mpr
    ensures Instruction(n, q, form, op, v) == Instruction(m, q, form, op, v)
  {
  }

  lemma PlusPlus(q: int, j: int, k: int)
    ensures Plus16(Plus16(q, j), k) == Plus16(q, j + k) && Word16(Plus16(q, j))
  {
  }

  lemma PlusNone16(q: int)
    requires Word16(q)
    ensures Plus16(q, 0) == q
  {
  }

  lemma LoadMeans(r: Regs, v: byte)
    requires Fits(Byte, r.a)
    ensures AluEval(LD, r, v).res == v && AluEval(LD, r, v).p == NZ(r.p, v)
  {
  }

  /** ADC and SBC read A and the flags. */
  lemma ArithmeticSees(f: AluOp, r: Regs, e: Regs, v: byte)
    requires Fits(Byte, r.a) && r.a == e.a && r.p == e.p && (f == ADC || f == SBC)
    ensures AluEval(f, r, v) == AluEval(f, e, v)
  {
    hide AddBinary, AddDecimal, SubDecimal;
  }

  lemma MovedKeeps(m: Machine, form: Form, q: int, a: int, p: Flags, irq: Irq)
    ensures var v := Moved(m, form, q).(a := a, p := p, irq := irq); v.mpr == m.v.mpr && v.a == a && v.p == p
    ensures var v := Moved(m, form, q).(irq := irq); v.mpr == m.v.mpr && v.a == m.v.a && v.p == m.v.p
  {
    hide Phys;
  }

  function Combined(m: Machine, form: Form, f: AluOp, x: int, y: int): AluOut
    requires f == ADC || f == SBC
  {
    var a := Held(m, form, x);
    AluEval(f, RegsOf(m).(a := a, p := NZ(m.v.p, a)), Held(m, form, y))
  }

  predicate Masked(m: Machine, ls: seq<Lines>) {
    m.v.p.i || forall l <- ls :: l == QUIET
  }

  /** LDA, and the machine after it. */
  lemma LoadStep(m: Machine, l: Lines, q: int, form: Form, x: nat) returns (n: Machine)
    requires AtCode(m, q) && Instruction(m, q, form, Opcode(form, LD), x) && (m.v.p.i || l == QUIET)
    ensures n == Next(m, l).0 && Chosen(m, l).0 != IBranchSub
    ensures AtCode(n, Plus16(q, Size(form))) && n.mem == m.mem && n.v.mpr == m.v.mpr && n.v.p.i == m.v.p.i
    ensures n.v.a == Held(m, form, x) && n.v.p == NZ(m.v.p, Held(m, form, x))
  {
    hide AtCode, Code, Operand, Place, Next, Chosen, AluEval, NZ, Moved, Plus16, Opcode, Bare;
    n := Next(m, l).0;
    RegsAre(m);
    ReadNext(m, l, q, form, LD);
    LoadMeans(RegsOf(m), Held(m, form, x));
    FlagsKept(LD, RegsOf(m), Held(m, form, x));
    MovedKeeps(m, form, q, n.v.a, n.v.p, n.v.irq);
  }

  /** ADC or SBC, and the machine after it. */
  lemma OperateStep(m: Machine, l: Lines, q: int, form: Form, f: AluOp, y: nat) returns (n: Machine)
    requires AtCode(m, q) && (f == ADC || f == SBC) && Instruction(m, q, form, Opcode(form, f), y)
    requires m.v.p.i || l == QUIET
    ensures n == Next(m, l).0 && Chosen(m, l).0 != IBranchSub && Fits(Byte, m.v.a)
    ensures AtCode(n, Plus16(q, Size(form))) && n.mem == m.mem && n.v.mpr == m.v.mpr && n.v.p.i == m.v.p.i
    ensures var o := AluEval(f, RegsOf(m), Held(m, form, y)); n.v.a == o.res && n.v.p == o.p && Fits(Byte, o.res)
  {
    hide AtCode, Code, Operand, Place, Next, Chosen, AluEval, Moved, Plus16, Opcode, Bare;
    n := Next(m, l).0;
    RegsAre(m);
    ReadNext(m, l, q, form, f);
    FlagsKept(f, RegsOf(m), Held(m, form, y));
    MovedKeeps(m, form, q, n.v.a, n.v.p, n.v.irq);
  }

  /** STA, and the machine after it. */
  lemma StoreStep(m: Machine, l: Lines, q: int, form: Form, z: nat) returns (n: Machine)
    requires AtCode(m, q) && Instruction(m, q, form, StoreOpcode(form), z) && (m.v.p.i || l == QUIET)
    ensures n == Next(m, l).0 && Chosen(m, l).0 != IBranchSub
    ensures AtCode(n, Plus16(q, Size(form))) && n.v.mpr == m.v.mpr && n.v.p == m.v.p
    ensures n.mem == m.mem[Place(m.v.mpr, form, z) := AsByte(m.v.a)]
  {
    hide AtCode, Code, Operand, Place, Next, Chosen, Moved, Plus16, StoreOpcode, Bare;
    n := Next(m, l).0;
    WriteNext(m, l, q, form);
    MovedKeeps(m, form, q, n.v.a, n.v.p, n.v.irq);
  }

  /** The three instructions, and the machine after each. */
  lemma ByteStep(m: Machine, l0: Lines, l1: Lines, l2: Lines, q: int, form: Form, f: AluOp, x: nat, y: nat, z: nat)
      returns (m1: Machine, m2: Machine, m3: Machine)
    requires AtCode(m, q) && (f == ADC || f == SBC) && ByteCode(m, q, form, f, x, y, z)
    requires m.v.p.i || l0 == l1 == l2 == QUIET
    ensures m1 == Next(m, l0).0 && m2 == Next(m1, l1).0 && m3 == Next(m2, l2).0
    ensures Chosen(m, l0).0 != IBranchSub && Chosen(m1, l1).0 != IBranchSub && Chosen(m2, l2).0 != IBranchSub
    ensures AtCode(m1, Plus16(q, Size(form))) && m1.mem == m.mem && m1.v.mpr == m.v.mpr
    ensures AtCode(m2, Plus16(q, 2 * Size(form))) && m2.mem == m.mem && m2.v.mpr == m.v.mpr
    ensures AtCode(m3, Plus16(q, 3 * Size(form))) && m3.v.mpr == m.v.mpr && m3.v.p.i == m.v.p.i
    ensures var o := Combined(m, form, f, x, y);
      m3.mem == m.mem[Place(m.v.mpr, form, z) := AsByte(o.res)] && m3.v.p == o.p
  {
    hide AtCode, Place, Next, Chosen, AluEval, NZ, Plus16, Instruction, Read, Opcode, StoreOpcode;
    var n := Size(form);
    PlusPlus(q, n, n);
    PlusPlus(q, 2 * n, n);
    m1 := LoadStep(m, l0, q, form, x);
    SameInstruction(m, m1, Plus16(q, n), form, Opcode(form, f), y);
    m2 := OperateStep(m1, l1, Plus16(q, n), form, f, y);
    ArithmeticSees(f, RegsOf(m1), RegsOf(m).(a := m1.v.a, p := m1.v.p), Held(m, form, y));
    SameInstruction(m, m2, Plus16(q, 2 * n), form, StoreOpcode(form), z);
    m3 := StoreStep(m2, l2, Plus16(q, 2 * n), form, z);
  }

  // ----- Numbers of any length -----

  /** The code for byte k. */
  predicate PartCode(m: Machine, q: int, form: Form, f: AluOp, x: nat, y: nat, z: nat, k: nat) {
    ByteCode(m, Plus16(q, 3 * Size(form) * k), form, f, x + k, y + k, z + k)
  }

  /** The program for n bytes, at q: byte k of x and y gives byte k of z. */
  predicate Program(m: Machine, q: int, form: Form, f: AluOp, x: nat, y: nat, z: nat, n: nat) {
    forall k: nat :: k < n ==> PartCode(m, q, form, f, x, y, z, k)
  }

  /** Byte k from z is not byte j of the code. */
  predicate ClearOf(mpr: File8, form: Form, q: int, z: nat, k: nat, j: nat) {
    Place(mpr, form, z + k) != Phys(mpr, Plus16(q, j))
  }

  /** Byte i from z is not byte j from w. */
  predicate Elsewhere(mpr: File8, form: Form, z: nat, i: nat, w: nat, j: nat) {
    Place(mpr, form, z + i) != Place(mpr, form, w + j)
  }

  predicate CodeAlike(m: Machine, u: Machine, q: int, j: nat) {
    Code(u, Plus16(q, j)) == Code(m, Plus16(q, j))
  }

  /** No byte stored is one of the program's, one that it reads later, or one it stores later. */
  predicate Spares(mpr: File8, q: int, form: Form, x: nat, y: nat, z: nat, n: nat) {
    && (forall k: nat, j: nat :: k < n && j < 3 * Size(form) * n ==> ClearOf(mpr, form, q, z, k, j))
    && (forall i: nat, j: nat :: i < j < n ==>
          Elsewhere(mpr, form, z, i, x, j) && Elsewhere(mpr, form, z, i, y, j)
          && Elsewhere(mpr, form, z, i, z, j))
  }

  function Stored(m: Machine, form: Form, x: nat, n: nat): (r: seq<byte>)
    ensures |r| == n
  {
    seq<byte>(n, k requires 0 <= k < n => Held(m, form, x + k))
  }

  lemma StoredAt(m: Machine, form: Form, x: nat, n: nat, k: nat)
    requires k < n
    ensures Stored(m, form, x, n)[k] == Held(m, form, x + k)
  {
    hide Held;
  }

  lemma StoredFirst(m: Machine, form: Form, x: nat, n: nat)
    requires n > 0
    ensures Stored(m, form, x, n) == [Held(m, form, x)] + Stored(m, form, x + 1, n - 1)
    ensures Stored(m, form, x, n)[1..] == Stored(m, form, x + 1, n - 1)
  {
    hide Held;
    var rest, all := Stored(m, form, x + 1, n - 1), Stored(m, form, x, n);
    forall k | 0 <= k < n - 1
      ensures rest[k] == all[k + 1]
    {
      StoredAt(m, form, x + 1, n - 1, k);
      StoredAt(m, form, x, n, k + 1);
      assert x + (k + 1) == x + 1 + k;
    }
  }

  /** Byte 0 of the result does not reach the code behind it. */
  lemma CodeKept(m: Machine, u: Machine, q: int, form: Form, x: nat, y: nat, z: nat, n: nat, b: byte, j: nat)
    requires n > 0 && Spares(m.v.mpr, q, form, x, y, z, n) && j < 3 * Size(form) * n
    requires u.v.mpr == m.v.mpr && u.mem == m.mem[Place(m.v.mpr, form, z) := b]
    ensures Code(u, Plus16(q, j)) == Code(m, Plus16(q, j))
  {
    hide Place, Phys, Plus16;
    PlusPlus(q, j, 0);
    assert ClearOf(m.v.mpr, form, q, z, 0, j);
  }

  lemma ByteKept(m: Machine, u: Machine, p: int, form: Form, f: AluOp, x: nat, y: nat, z: nat)
    requires ByteCode(m, p, form, f, x, y, z) && Word16(p)
    requires forall j: nat :: j < 3 * Size(form) ==> CodeAlike(m, u, p, j)
    ensures ByteCode(u, p, form, f, x, y, z)
  {
    hide Code, Plus16, Opcode;
    var n := Size(form);
    PlusNone16(p);
    assert CodeAlike(m, u, p, 0) && CodeAlike(m, u, p, 1) && CodeAlike(m, u, p, 2) && CodeAlike(m, u, p, 3);
    assert CodeAlike(m, u, p, 4) && CodeAlike(m, u, p, 5);
    assert form.Long? ==> CodeAlike(m, u, p, 6) && CodeAlike(m, u, p, 7) && CodeAlike(m, u, p, 8);
    PlusPlus(p, n, 1);
    PlusPlus(p, n, 2);
    PlusPlus(p, 2 * n, 1);
    PlusPlus(p, 2 * n, 2);
  }

  /** The rest of the program is as it was. */
  lemma ProgramKept(m: Machine, u: Machine, q: int, form: Form, f: AluOp, x: nat, y: nat, z: nat, n: nat, b: byte)
    requires n > 0 && Program(m, q, form, f, x, y, z, n) && Spares(m.v.mpr, q, form, x, y, z, n)
    requires u.v.mpr == m.v.mpr && u.mem == m.mem[Place(m.v.mpr, form, z) := b]
    ensures Program(u, Plus16(q, 3 * Size(form)), form, f, x + 1, y + 1, z + 1, n - 1)
  {
    hide Place, Phys, Plus16, ByteCode, Code, Spares;
    var w := 3 * Size(form);
    var x1: nat, y1: nat, z1: nat := x + 1, y + 1, z + 1;
    forall k: nat | k < n - 1
      ensures PartCode(u, Plus16(q, w), form, f, x1, y1, z1, k)
    {
      var at := w * (k + 1);
      assert PartCode(m, q, form, f, x, y, z, k + 1);
      assert at + w <= w * n by { Multiple(n - k - 1, w); }
      forall j: nat | j < w
        ensures CodeAlike(m, u, Plus16(q, at), j)
      {
        PlusPlus(q, at, j);
        CodeKept(m, u, q, form, x, y, z, n, b, at + j);
      }
      PlusPlus(q, at, 0);
      ByteKept(m, u, Plus16(q, at), form, f, x + (k + 1), y + (k + 1), z + (k + 1));
      PlusPlus(q, w, w * k);
      assert x + (k + 1) == x1 + k && y + (k + 1) == y1 + k && z + (k + 1) == z1 + k && w + w * k == at;
    }
  }

  lemma SparesKept(mpr: File8, q: int, form: Form, x: nat, y: nat, z: nat, n: nat)
    requires n > 0 && Spares(mpr, q, form, x, y, z, n)
    ensures Spares(mpr, Plus16(q, 3 * Size(form)), form, x + 1, y + 1, z + 1, n - 1)
  {
    hide Place, Phys, Plus16;
    var w := 3 * Size(form);
    var x1: nat, y1: nat, z1: nat := x + 1, y + 1, z + 1;
    forall k: nat, j: nat | k < n - 1 && j < w * (n - 1)
      ensures ClearOf(mpr, form, Plus16(q, w), z1, k, j)
    {
      PlusPlus(q, w, j);
      assert w * (n - 1) == w * n - w;
      assert ClearOf(mpr, form, q, z, k + 1, w + j);
    }
    forall i: nat, j: nat | i < j < n - 1
      ensures Elsewhere(mpr, form, z1, i, x1, j) && Elsewhere(mpr, form, z1, i, y1, j)
      ensures Elsewhere(mpr, form, z1, i, z1, j)
    {
      assert Elsewhere(mpr, form, z, i + 1, x, j + 1) && Elsewhere(mpr, form, z, i + 1, y, j + 1);
      assert Elsewhere(mpr, form, z, i + 1, z, j + 1);
    }
  }

  /** The bytes still to be read are as they were. */
  lemma BytesKept(m: Machine, u: Machine, form: Form, x: nat, z: nat, n: nat, b: byte)
    requires n > 0 && u.v.mpr == m.v.mpr && u.mem == m.mem[Place(m.v.mpr, form, z) := b]
    requires forall j: nat :: 0 < j < n ==> Elsewhere(m.v.mpr, form, z, 0, x, j)
    ensures Stored(u, form, x + 1, n - 1) == Stored(m, form, x, n)[1..]
  {
    hide Place, Stored;
    StoredFirst(m, form, x, n);
    var now, was := Stored(u, form, x + 1, n - 1), Stored(m, form, x + 1, n - 1);
    forall k | 0 <= k < n - 1
      ensures now[k] == was[k]
    {
      assert Elsewhere(m.v.mpr, form, z, 0, x, k + 1);
      StoredAt(u, form, x + 1, n - 1, k);
      StoredAt(m, form, x + 1, n - 1, k);
      assert x + (k + 1) == x + 1 + k;
    }
  }

  lemma SparedBytes(mpr: File8, q: int, form: Form, x: nat, y: nat, z: nat, n: nat)
    requires Spares(mpr, q, form, x, y, z, n)
    ensures forall j: nat :: 0 < j < n ==> Elsewhere(mpr, form, z, 0, x, j) && Elsewhere(mpr, form, z, 0, y, j)
    ensures forall j: nat :: 0 < j < n ==> Elsewhere(mpr, form, z, 0, z, j)
  {
    hide Elsewhere;
    forall j: nat | 0 < j < n
      ensures Elsewhere(mpr, form, z, 0, x, j) && Elsewhere(mpr, form, z, 0, y, j) && Elsewhere(mpr, form, z, 0, z, j)
    {
      assert Elsewhere(mpr, form, z, 0, x, j) && Elsewhere(mpr, form, z, 0, y, j)
        && Elsewhere(mpr, form, z, 0, z, j);
    }
  }

  /** A chain reads only the flags it starts with. */
  lemma {:induction false} ChainSees(f: AluOp, xs: seq<byte>, ys: seq<byte>, r: Regs, e: Regs)
    requires |xs| == |ys| && r.p == e.p && (f == ADC || f == SBC)
    ensures Chain(f, xs, ys, r) == Chain(f, xs, ys, e)
    decreases |xs|
  {
    hide AluEval;
    if |xs| > 0 {
      LoadIs(r, xs[0]);
      LoadIs(e, xs[0]);
      var p := NZ(r.p, xs[0]);
      ArithmeticSees(f, r.(a := xs[0], p := p), e.(a := xs[0], p := p), ys[0]);
      var o := AluEval(f, r.(a := xs[0], p := p), ys[0]);
      ChainSees(f, xs[1..], ys[1..], r.(p := o.p), e.(p := o.p));
    }
  }

  lemma ChainNext(f: AluOp, xs: seq<byte>, ys: seq<byte>, r: Regs, e: Regs)
    requires |xs| == |ys| > 0 && (f == ADC || f == SBC)
    requires e.p == AluEval(f, r.(a := xs[0], p := NZ(r.p, xs[0])), ys[0]).p
    ensures var o, rest := AluEval(f, r.(a := xs[0], p := NZ(r.p, xs[0])), ys[0]), Chain(f, xs[1..], ys[1..], e);
      Chain(f, xs, ys, r) == ([AsByte(o.res)] + rest.0, rest.1)
  {
    hide AluEval;
    LoadIs(r, xs[0]);
    var o := AluEval(f, r.(a := xs[0], p := NZ(r.p, xs[0])), ys[0]);
    ChainSees(f, xs[1..], ys[1..], r.(p := o.p), e);
  }

  lemma ChainNone(f: AluOp, xs: seq<byte>, ys: seq<byte>, r: Regs)
    requires xs == ys == []
    ensures Chain(f, xs, ys, r) == ([], r.p)
  {
  }

  /** Whether an address holds one of the n bytes from z. */
  predicate InResult(mpr: File8, form: Form, z: nat, n: nat, a: int) {
    exists v: nat :: z <= v < z + n && a == Place(mpr, form, v)
  }

  /** The first byte stored is not stored to again, and everything beside the result is kept. */
  lemma ResultGrows(m: Machine, u: Machine, t: Machine, form: Form, z: nat, n: nat, b: byte)
    requires n > 0 && u.v.mpr == t.v.mpr == m.v.mpr && u.mem == m.mem[Place(m.v.mpr, form, z) := b]
    requires forall j: nat :: 0 < j < n ==> Elsewhere(m.v.mpr, form, z, 0, z, j)
    requires forall a :: !InResult(m.v.mpr, form, z + 1, n - 1, a) ==> Read(t.mem, a) == Read(u.mem, a)
    ensures Held(t, form, z) == b
    ensures forall a :: !InResult(m.v.mpr, form, z, n, a) ==> Read(t.mem, a) == Read(m.mem, a)
  {
    hide Place;
    var mpr := m.v.mpr;
    forall v: nat | z + 1 <= v < z + n
      ensures Place(mpr, form, z) != Place(mpr, form, v)
    {
      assert Elsewhere(mpr, form, z, 0, z, v - z);
    }
    assert !InResult(mpr, form, z + 1, n - 1, Place(mpr, form, z));
    forall a | !InResult(mpr, form, z, n, a)
      ensures Read(t.mem, a) == Read(m.mem, a)
    {
      assert a != Place(mpr, form, z) && !InResult(mpr, form, z + 1, n - 1, a);
    }
  }

  lemma FirstOf(m: Machine, q: int, form: Form, f: AluOp, x: nat, y: nat, z: nat, n: nat)
    requires Program(m, q, form, f, x, y, z, n) && n > 0 && Word16(q)
    ensures ByteCode(m, q, form, f, x, y, z)
  {
    hide ByteCode, Plus16;
    PlusNone16(q);
    assert PartCode(m, q, form, f, x, y, z, 0);
    assert x + 0 == x && y + 0 == y && z + 0 == z && 3 * Size(form) * 0 == 0;
  }

  lemma RunThree(m: Machine, ls: seq<Lines>)
    requires |ls| >= 3
    ensures IsaRun(m, ls) == IsaRun(Next(Next(Next(m, ls[0]).0, ls[1]).0, ls[2]).0, ls[3..])
  {
    hide Next;
    assert ls[1..][1..][1..] == ls[3..];
  }

  /** What is left after the first byte. */
  lemma ByteDone(m: Machine, u: Machine, q: int, form: Form, f: AluOp, x: nat, y: nat, z: nat, n: nat)
    requires n > 0 && (f == ADC || f == SBC) && u.v.mpr == m.v.mpr
    requires Program(m, q, form, f, x, y, z, n) && Spares(m.v.mpr, q, form, x, y, z, n)
    requires var o := Combined(m, form, f, x, y);
      u.mem == m.mem[Place(m.v.mpr, form, z) := AsByte(o.res)] && u.v.p == o.p
    ensures Program(u, Plus16(q, 3 * Size(form)), form, f, x + 1, y + 1, z + 1, n - 1)
    ensures Spares(u.v.mpr, Plus16(q, 3 * Size(form)), form, x + 1, y + 1, z + 1, n - 1)
    ensures Stored(u, form, x + 1, n - 1) == Stored(m, form, x, n)[1..]
    ensures Stored(u, form, y + 1, n - 1) == Stored(m, form, y, n)[1..]
    ensures var rest := Chain(f, Stored(u, form, x + 1, n - 1), Stored(u, form, y + 1, n - 1), RegsOf(u));
      Chain(f, Stored(m, form, x, n), Stored(m, form, y, n), RegsOf(m))
      == ([AsByte(Combined(m, form, f, x, y).res)] + rest.0, rest.1)
  {
    hide Program, Spares, Stored, Held, Place, AluEval, NZ, Chain, Plus16;
    var b := AsByte(Combined(m, form, f, x, y).res);
    ProgramKept(m, u, q, form, f, x, y, z, n, b);
    SparesKept(m.v.mpr, q, form, x, y, z, n);
    SparedBytes(m.v.mpr, q, form, x, y, z, n);
    BytesKept(m, u, form, x, z, n, b);
    BytesKept(m, u, form, y, z, n, b);
    StoredFirst(m, form, x, n);
    StoredFirst(m, form, y, n);
    ChainNext(f, Stored(m, form, x, n), Stored(m, form, y, n), RegsOf(m), RegsOf(u));
  }

  lemma MaskedThree(m: Machine, ls: seq<Lines>)
    requires Masked(m, ls) && |ls| >= 3
    ensures m.v.p.i || ls[0] == ls[1] == ls[2] == QUIET
  {
    assert ls[0] in ls && ls[1] in ls && ls[2] in ls;
  }

  lemma MaskedRest(m: Machine, u: Machine, ls: seq<Lines>)
    requires Masked(m, ls) && |ls| >= 3 && u.v.p.i == m.v.p.i
    ensures Masked(u, ls[3..])
  {
    assert forall l <- ls[3..] :: l in ls;
  }

  lemma NoBytes(m: Machine, form: Form, f: AluOp, x: nat, y: nat, z: nat)
    requires f == ADC || f == SBC
    ensures Chain(f, Stored(m, form, x, 0), Stored(m, form, y, 0), RegsOf(m)) == (Stored(m, form, z, 0), m.v.p)
  {
    RegsAre(m);
    ChainNone(f, Stored(m, form, x, 0), Stored(m, form, y, 0), RegsOf(m));
  }

  /**
   The program does what Chain says, for any number of bytes, and stores nothing else: with I set or no
   requests, whatever else is in the machine.
   */
  lemma {:induction false} ProgramRuns(m: Machine, ls: seq<Lines>, q: int, form: Form, f: AluOp, x: nat, y: nat,
      z: nat, n: nat)
    requires AtCode(m, q) && |ls| == 3 * n && Masked(m, ls) && (f == ADC || f == SBC)
    requires Program(m, q, form, f, x, y, z, n) && Spares(m.v.mpr, q, form, x, y, z, n)
    ensures var t, out := IsaRun(m, ls), Chain(f, Stored(m, form, x, n), Stored(m, form, y, n), RegsOf(m));
      && AtCode(t, Plus16(q, 3 * Size(form) * n)) && t.v.mpr == m.v.mpr && t.v.p == out.1
      && Stored(t, form, z, n) == out.0
      && forall a :: !InResult(m.v.mpr, form, z, n, a) ==> Read(t.mem, a) == Read(m.mem, a)
    decreases n
  {
    hide ByteCode, Plus16, Place, AluEval, AtCode, Program, Spares, Chain, NZ, Stored, Held, InResult, Read, Next,
      Chosen, Combined, Bare, Masked;
    AtWord(m, q);
    if n == 0 {
      PlusNone16(q);
      NoBytes(m, form, f, x, y, z);
    } else {
      FirstOf(m, q, form, f, x, y, z, n);
      MaskedThree(m, ls);
      var m1, m2, u := ByteStep(m, ls[0], ls[1], ls[2], q, form, f, x, y, z);
      ByteDone(m, u, q, form, f, x, y, z, n);
      RunThree(m, ls);
      MaskedRest(m, u, ls);
      ProgramRuns(u, ls[3..], Plus16(q, 3 * Size(form)), form, f, x + 1, y + 1, z + 1, n - 1);
      PlusPlus(q, 3 * Size(form), 3 * Size(form) * (n - 1));
      assert 3 * Size(form) + 3 * Size(form) * (n - 1) == 3 * Size(form) * n;
      var t := IsaRun(m, ls);
      SparedBytes(m.v.mpr, q, form, x, y, z, n);
      ResultGrows(m, u, t, form, z, n, AsByte(Combined(m, form, f, x, y).res));
      StoredFirst(t, form, z, n);
    }
  }

  // ----- With interrupts in between -----

  predicate CodeShown(hidden: set<int>, mpr: File8, q: int, j: nat) {
    Phys(mpr, Plus16(q, j)) !in hidden
  }

  predicate BytesShown(hidden: set<int>, mpr: File8, form: Form, x: nat, y: nat, z: nat, k: nat) {
    Place(mpr, form, x + k) !in hidden && Place(mpr, form, y + k) !in hidden && Place(mpr, form, z + k) !in hidden
  }

  /** Handlers stay away from the program and its operands. */
  predicate ProgramShown(hidden: set<int>, mpr: File8, q: int, form: Form, x: nat, y: nat, z: nat, n: nat) {
    && (forall j: nat :: j < 3 * Size(form) * n ==> CodeShown(hidden, mpr, q, j))
    && forall k: nat :: k < n ==> BytesShown(hidden, mpr, form, x, y, z, k)
  }

  lemma SeesCode(hidden: set<int>, m: Machine, n: Machine, q: int, form: Form)
    requires Matches(hidden, m, n) && Word16(q)
    requires forall j: nat :: j < Size(form) ==> CodeShown(hidden, n.v.mpr, q, j)
    ensures Code(m, q) == Code(n, q) && Operand(m, form, q) == Operand(n, form, q)
  {
    hide Phys, Plus16, Read;
    PlusNone16(q);
    PlusPlus(q, 1, 0);
    PlusPlus(q, 2, 0);
    assert CodeShown(hidden, n.v.mpr, q, 0) && CodeShown(hidden, n.v.mpr, q, 1);
    assert form.Long? ==> CodeShown(hidden, n.v.mpr, q, 2);
  }

  lemma StandsThere(hidden: set<int>, m: Machine, n: Machine, q: int)
    requires Matches(hidden, m, n) && AtCode(n, q) && Stands(m) && !m.v.irq.pending
    ensures AtCode(m, q) && m.v.mpr == n.v.mpr && RegsOf(m) == RegsOf(n).(p := RegsOf(n).p.(b := m.v.p.b))
  {
    hide Stands, Read;
  }

  /** The same result, with bit 4 of P as given. */
  predicate PassedOn(o: AluOut, o': AluOut, b: bool) {
    o'.res == o.res && o'.p == o.p.(b := b)
  }

  lemma AddBreak(r: Regs, v: byte, b: bool)
    requires Fits(Byte, r.a)
    ensures PassedOn(AluEval(ADC, r, v), AluEval(ADC, r.(p := r.p.(b := b)), v), b)
  {
    hide AluEval, AddBinary, AddDecimal;
    var q := r.(p := r.p.(b := b));
    AluIs(ADC, r, v);
    AluIs(ADC, q, v);
    if r.p.d {
      AddDecimalPasses(r.a, v, r.p, b);
    } else {
      AddPasses(r.a, v, r.p, b);
    }
  }

  lemma SubBreak(r: Regs, v: byte, b: bool)
    requires Fits(Byte, r.a)
    ensures PassedOn(AluEval(SBC, r, v), AluEval(SBC, r.(p := r.p.(b := b)), v), b)
  {
    hide AluEval, AddBinary, SubDecimal;
    var q := r.(p := r.p.(b := b));
    AluIs(SBC, r, v);
    AluIs(SBC, q, v);
    if r.p.d {
      SubDecimalPasses(r.a, 255 - v, r.p, b);
    } else {
      AddPasses(r.a, 255 - v, r.p, b);
    }
  }

  lemma LoadBreak(r: Regs, v: byte, b: bool)
    requires Fits(Byte, r.a)
    ensures PassedOn(AluEval(LD, r, v), AluEval(LD, r.(p := r.p.(b := b)), v), b)
  {
    hide AluEval, NZ;
    var q := r.(p := r.p.(b := b));
    AluIs(LD, r, v);
    AluIs(LD, q, v);
    NZPasses(r.p, v, b);
  }

  /** Bit 4 of P passes through. */
  lemma BreakPasses(f: AluOp, r: Regs, v: byte, b: bool)
    requires Fits(Byte, r.a) && Loads(f)
    ensures PassedOn(AluEval(f, r, v), AluEval(f, r.(p := r.p.(b := b)), v), b)
  {
    hide AluEval, PassedOn;
    match f {
      case LD => LoadBreak(r, v, b);
      case ADC => AddBreak(r, v, b);
      case SBC => SubBreak(r, v, b);
    }
  }

  lemma AluIs(f: AluOp, r: Regs, v: byte)
    requires Fits(Byte, r.a)
    ensures f == LD ==> AluEval(f, r, v) == AluOut(v, v, NZ(r.p, v))
    ensures f == ADC ==> AluEval(f, r, v) == if r.p.d then AddDecimal(r.a, v, r.p) else AddBinary(r.a, v, r.p)
    ensures f == SBC ==>
      AluEval(f, r, v) == if r.p.d then SubDecimal(r.a, 255 - v, r.p) else AddBinary(r.a, 255 - v, r.p)
  {
    hide AddBinary, AddDecimal, SubDecimal, NZ, Compare, BitOr, BitAnd, BitXor;
  }

  lemma NZPasses(p: Flags, v: int, b: bool)
    ensures NZ(p.(b := b), v) == NZ(p, v).(b := b)
  {
    hide Bit7;
  }

  lemma AddPasses(a: int, v: int, p: Flags, b: bool)
    ensures PassedOn(AddBinary(a, v, p), AddBinary(a, v, p.(b := b)), b)
  {
    hide NZ, Overflow;
    NZPasses(p, (a + v + Bit(p.c)) % 256, b);
  }

  lemma AddDecimalPasses(a: int, v: int, p: Flags, b: bool)
    ensures PassedOn(AddDecimal(a, v, p), AddDecimal(a, v, p.(b := b)), b)
  {
    hide NZ;
    NZPasses(p, AddDecimal(a, v, p).res, b);
  }

  lemma SubDecimalPasses(a: int, w: int, p: Flags, b: bool)
    ensures PassedOn(SubDecimal(a, w, p), SubDecimal(a, w, p.(b := b)), b)
  {
    hide NZ;
    NZPasses(p, SubDecimal(a, w, p).res, b);
  }

  lemma ReadInsensitive(hidden: set<int>, n: Machine, q: int, form: Form, f: AluOp)
    requires AtCode(n, q) && Loads(f) && Code(n, q) == Opcode(form, f)
    requires forall j: nat :: j < Size(form) ==> CodeShown(hidden, n.v.mpr, q, j)
    requires Place(n.v.mpr, form, Operand(n, form, q)) !in hidden
    ensures Insensitive(hidden, n)
  {
    hide AtCode, Matches, Stands, Next, Place, Operand, Code, CodeShown, AluEval, Opcode;
    CodeBoundary(n, q);
    forall m: Machine, l: Lines | Matches(hidden, m, n) && Stands(m) && !m.v.irq.pending
      ensures Matches(hidden, Next(m, l).0, Next(n, QUIET).0)
    {
      StandsThere(hidden, m, n, q);
      SeesCode(hidden, m, n, q, form);
      ReadNext(m, l, q, form, f);
      ReadNext(n, QUIET, q, form, f);
      var v := Read(n.mem, Place(n.v.mpr, form, Operand(n, form, q)));
      SeesByte(hidden, m, n, Place(n.v.mpr, form, Operand(n, form, q)));
      BreakPasses(f, RegsOf(n), v, m.v.p.b);
      var o := AluEval(f, RegsOf(n), v);
      MovedMatches(hidden, m, n, Next(m, l).0, Next(n, QUIET).0, form, q, o.res, o.p);
    }
  }

  lemma SeesByte(hidden: set<int>, m: Machine, n: Machine, a: int)
    requires Matches(hidden, m, n) && a !in hidden
    ensures Read(m.mem, a) == Read(n.mem, a)
  {
    hide Read;
  }

  lemma MovedMatches(hidden: set<int>, m: Machine, n: Machine, m': Machine, n': Machine, form: Form, q: int, a: int,
      p: Flags)
    requires Matches(hidden, m, n)
    requires m' == Machine(Moved(m, form, q).(a := a, p := p.(b := m.v.p.b), irq := m'.v.irq), m.mem)
    requires n' == Machine(Moved(n, form, q).(a := a, p := p, irq := n'.v.irq), n.mem)
    ensures Matches(hidden, m', n')
  {
    hide Phys, Plus16, Read;
  }

  lemma WriteInsensitive(hidden: set<int>, n: Machine, q: int, form: Form)
    requires AtCode(n, q) && Code(n, q) == StoreOpcode(form)
    requires forall j: nat :: j < Size(form) ==> CodeShown(hidden, n.v.mpr, q, j)
    ensures Insensitive(hidden, n)
  {
    hide AtCode, Matches, Stands, Next, Place, Operand, Code, CodeShown;
    CodeBoundary(n, q);
    forall m: Machine, l: Lines | Matches(hidden, m, n) && Stands(m) && !m.v.irq.pending
      ensures Matches(hidden, Next(m, l).0, Next(n, QUIET).0)
    {
      StandsThere(hidden, m, n, q);
      SeesCode(hidden, m, n, q, form);
      WriteNext(m, l, q, form);
      WriteNext(n, QUIET, q, form);
      StoredMatches(hidden, m, n, Next(m, l).0, Next(n, QUIET).0, form, q,
                    Place(n.v.mpr, form, Operand(n, form, q)), AsByte(n.v.a));
    }
  }

  lemma StoredMatches(hidden: set<int>, m: Machine, n: Machine, m': Machine, n': Machine, form: Form, q: int, at: int,
      b: byte)
    requires Matches(hidden, m, n)
    requires m' == Machine(Moved(m, form, q).(irq := m'.v.irq), m.mem[at := b])
    requires n' == Machine(Moved(n, form, q).(irq := n'.v.irq), n.mem[at := b])
    ensures Matches(hidden, m', n')
  {
    hide Phys, Plus16;
  }

  lemma ShownFrom(hidden: set<int>, mpr: File8, q: int, form: Form, from: nat, w: nat)
    requires forall j: nat :: j < w ==> CodeShown(hidden, mpr, q, j)
    requires from + Size(form) <= w
    ensures forall j: nat :: j < Size(form) ==> CodeShown(hidden, mpr, Plus16(q, from), j)
  {
    hide Phys, Plus16;
    forall j: nat | j < Size(form)
      ensures CodeShown(hidden, mpr, Plus16(q, from), j)
    {
      PlusPlus(q, from, j);
      assert CodeShown(hidden, mpr, q, from + j);
    }
  }

  lemma ShownKept(hidden: set<int>, mpr: File8, q: int, form: Form, x: nat, y: nat, z: nat, n: nat)
    requires n > 0 && ProgramShown(hidden, mpr, q, form, x, y, z, n)
    ensures ProgramShown(hidden, mpr, Plus16(q, 3 * Size(form)), form, x + 1, y + 1, z + 1, n - 1)
    ensures BytesShown(hidden, mpr, form, x, y, z, 0)
    ensures forall j: nat :: j < 3 * Size(form) ==> CodeShown(hidden, mpr, q, j)
  {
    hide Phys, Plus16, Place;
    var w := 3 * Size(form);
    assert w * (n - 1) == w * n - w && w <= w * n by { Multiple(n, w); }
    var x1: nat, y1: nat, z1: nat := x + 1, y + 1, z + 1;
    forall j: nat | j < w * (n - 1)
      ensures CodeShown(hidden, mpr, Plus16(q, w), j)
    {
      PlusPlus(q, w, j);
      assert CodeShown(hidden, mpr, q, w + j);
    }
    forall k: nat | k < n - 1
      ensures BytesShown(hidden, mpr, form, x1, y1, z1, k)
    {
      assert BytesShown(hidden, mpr, form, x, y, z, k + 1);
      assert x + (k + 1) == x1 + k && y + (k + 1) == y1 + k && z + (k + 1) == z1 + k;
    }
  }

  lemma BytesAt(hidden: set<int>, mpr: File8, form: Form, x: nat, y: nat, z: nat)
    requires BytesShown(hidden, mpr, form, x, y, z, 0)
    ensures Place(mpr, form, x) !in hidden && Place(mpr, form, y) !in hidden && Place(mpr, form, z) !in hidden
  {
    hide Place;
    assert x + 0 == x && y + 0 == y && z + 0 == z;
  }

  /** The three instructions for a byte do not look at hidden memory. */
  lemma ByteSteady(hidden: set<int>, m: Machine, q: int, form: Form, f: AluOp, x: nat, y: nat, z: nat)
      returns (u: Machine)
    requires AtCode(m, q) && (f == ADC || f == SBC) && ByteCode(m, q, form, f, x, y, z)
    requires BytesShown(hidden, m.v.mpr, form, x, y, z, 0)
    requires forall j: nat :: j < 3 * Size(form) ==> CodeShown(hidden, m.v.mpr, q, j)
    ensures AtCode(u, Plus16(q, 3 * Size(form))) && u.v.mpr == m.v.mpr
    ensures var o := Combined(m, form, f, x, y);
      u.mem == m.mem[Place(m.v.mpr, form, z) := AsByte(o.res)] && u.v.p == o.p
    ensures var m1 := Next(m, QUIET).0; var m2 := Next(m1, QUIET).0;
      Insensitive(hidden, m) && Insensitive(hidden, m1) && Insensitive(hidden, m2) && u == Next(m2, QUIET).0
  {
    hide Plus16, Place, AtCode, Next, Insensitive, Code, Operand, CodeShown, BytesShown, Opcode, Chosen, Combined, Bare,
      StoreOpcode;
    var w := Size(form);
    var m1, m2;
    m1, m2, u := ByteStep(m, QUIET, QUIET, QUIET, q, form, f, x, y, z);
    BytesAt(hidden, m.v.mpr, form, x, y, z);
    AtWord(m, q);
    PlusNone16(q);
    ShownFrom(hidden, m.v.mpr, q, form, 0, 3 * w);
    ShownFrom(hidden, m.v.mpr, q, form, w, 3 * w);
    ShownFrom(hidden, m.v.mpr, q, form, 2 * w, 3 * w);
    ReadInsensitive(hidden, m, q, form, LD);
    SameInstruction(m, m1, Plus16(q, w), form, Opcode(form, f), y);
    ReadInsensitive(hidden, m1, Plus16(q, w), form, f);
    SameInstruction(m, m2, Plus16(q, 2 * w), form, StoreOpcode(form), z);
    WriteInsensitive(hidden, m2, Plus16(q, 2 * w), form);
  }

  lemma AtWord(m: Machine, q: int)
    requires AtCode(m, q)
    ensures Word16(q)
  {
  }

  /** No instruction of the program looks at hidden memory. */
  lemma {:induction false} ProgramSteady(hidden: set<int>, m: Machine, q: int, form: Form, f: AluOp, x: nat, y: nat,
      z: nat, n: nat)
    requires AtCode(m, q) && (f == ADC || f == SBC) && ProgramShown(hidden, m.v.mpr, q, form, x, y, z, n)
    requires Program(m, q, form, f, x, y, z, n) && Spares(m.v.mpr, q, form, x, y, z, n)
    ensures Steady(hidden, m, 3 * n)
    decreases n
  {
    hide Plus16, Place, AtCode, ByteCode, Program, Spares, ProgramShown, Next, Insensitive, CodeShown, BytesShown,
      Chain, Stored, Combined, Bare, Steady;
    AtWord(m, q);
    if n == 0 {
      SteadyNone(hidden, m);
    } else {
      FirstOf(m, q, form, f, x, y, z, n);
      ShownKept(hidden, m.v.mpr, q, form, x, y, z, n);
      var u := ByteSteady(hidden, m, q, form, f, x, y, z);
      ByteDone(m, u, q, form, f, x, y, z, n);
      ProgramSteady(hidden, u, Plus16(q, 3 * Size(form)), form, f, x + 1, y + 1, z + 1, n - 1);
      SteadyThree(hidden, m, 3 * n);
    }
  }

  lemma SteadyNone(hidden: set<int>, m: Machine)
    ensures Steady(hidden, m, 0)
  {
  }

  lemma SteadyThree(hidden: set<int>, m: Machine, k: nat)
    requires k >= 3 && Insensitive(hidden, m)
    requires var m1 := Next(m, QUIET).0; var m2 := Next(m1, QUIET).0;
      Insensitive(hidden, m1) && Insensitive(hidden, m2) && Steady(hidden, Next(m2, QUIET).0, k - 3)
    ensures Steady(hidden, m, k)
  {
    hide Insensitive, Next;
    var m1 := Next(m, QUIET).0;
    var m2 := Next(m1, QUIET).0;
    assert Steady(hidden, m2, k - 2) && Steady(hidden, m1, k - 1);
  }

  /** The machine with its interrupt, if one is on its way, forgotten. */
  function Undisturbed(m: Machine): Machine {
    m.(v := m.v.(irq := m.v.irq.(pending := false)))
  }

  /** About to fetch the instruction at q, T clear; an interrupt may be entered first. */
  predicate Reaches(m: Machine, q: int) {
    Stands(m) && Word16(q) && m.v.pc == Inc16(q) && !m.v.p.t
  }

  lemma ReachesCode(hidden: set<int>, m: Machine, q: int)
    requires Reaches(m, q)
    ensures AtCode(Undisturbed(m), q) && Matches(hidden, m, Undisturbed(m))
  {
  }

  /**
   The program does what Chain says with interrupts enabled, entered anywhere and any number of times, as long
   as their handlers conform and stay away from its code and its numbers.
   */
  lemma ProgramServed(hidden: set<int>, m: Machine, items: seq<Item>, q: int, form: Form, f: AluOp, x: nat, y: nat,
      z: nat, n: nat)
    requires Reaches(m, q) && (f == ADC || f == SBC) && Serviced(hidden, m, items) && Mains(items) == 3 * n
    requires Program(m, q, form, f, x, y, z, n) && Spares(m.v.mpr, q, form, x, y, z, n)
    requires ProgramShown(hidden, m.v.mpr, q, form, x, y, z, n)
    ensures var t := IsaRun(m, Flat(items));
      var out := Chain(f, Stored(m, form, x, n), Stored(m, form, y, n), RegsOf(m));
      && t.v.pc == Inc16(Plus16(q, 3 * Size(form) * n)) && t.v.mpr == m.v.mpr && t.v.p == out.1.(b := t.v.p.b)
      && Stored(t, form, z, n) == out.0
      && forall a :: a !in hidden && !InResult(m.v.mpr, form, z, n, a) ==> Read(t.mem, a) == Read(m.mem, a)
  {
    hide Stands, Program, Spares, ProgramShown, Serviced, Steady, Flat, Mains, Chain, Place, Plus16, InResult, Read,
      IsaRun, Stored;
    var u := Undisturbed(m);
    ReachesCode(hidden, m, q);
    SameProgram(m, u, q, form, f, x, y, z, n);
    ProgramSteady(hidden, u, q, form, f, x, y, z, n);
    ServicesInvisible(hidden, m, items, u);
    ProgramRuns(u, Quiet(3 * n), q, form, f, x, y, z, n);
    ResultSeen(hidden, IsaRun(m, Flat(items)), IsaRun(u, Quiet(3 * n)), q, form, x, y, z, n);
  }

  lemma SameProgram(m: Machine, u: Machine, q: int, form: Form, f: AluOp, x: nat, y: nat, z: nat, n: nat)
    requires u == Undisturbed(m) && Program(m, q, form, f, x, y, z, n)
    ensures Program(u, q, form, f, x, y, z, n) && RegsOf(u) == RegsOf(m)
    ensures Stored(u, form, x, n) == Stored(m, form, x, n) && Stored(u, form, y, n) == Stored(m, form, y, n)
  {
    hide Place, Plus16, Phys, Opcode, Read, Stored;
    StoredSame(m, u, form, x, n);
    StoredSame(m, u, form, y, n);
    forall k: nat | k < n
      ensures PartCode(u, q, form, f, x, y, z, k)
    {
      assert PartCode(m, q, form, f, x, y, z, k);
    }
  }

  lemma StoredSame(m: Machine, u: Machine, form: Form, x: nat, n: nat)
    requires u.mem == m.mem && u.v.mpr == m.v.mpr
    ensures Stored(u, form, x, n) == Stored(m, form, x, n)
  {
    hide Place, Read;
    var now, was := Stored(u, form, x, n), Stored(m, form, x, n);
    forall k | 0 <= k < n
      ensures now[k] == was[k]
    {
      StoredAt(u, form, x, n, k);
      StoredAt(m, form, x, n, k);
    }
  }

  lemma ResultSeen(hidden: set<int>, t: Machine, u: Machine, q: int, form: Form, x: nat, y: nat, z: nat, n: nat)
    requires Matches(hidden, t, u) && ProgramShown(hidden, u.v.mpr, q, form, x, y, z, n)
    ensures Stored(t, form, z, n) == Stored(u, form, z, n)
  {
    hide Place, Read, CodeShown, Stored;
    var seen, was := Stored(t, form, z, n), Stored(u, form, z, n);
    forall k | 0 <= k < n
      ensures seen[k] == was[k]
    {
      assert BytesShown(hidden, u.v.mpr, form, x, y, z, k);
      StoredAt(t, form, z, n, k);
      StoredAt(u, form, z, n, k);
    }
  }

  /**
   A program of LDA, ADC, STA per byte leaves the sum of two n-byte numbers, binary or packed decimal as D
   says, with the carry out in C, whatever interrupts are served in between.
   */
  lemma ProgramAdds(hidden: set<int>, m: Machine, items: seq<Item>, q: int, form: Form, x: nat, y: nat, z: nat, n: nat)
    requires Reaches(m, q) && Serviced(hidden, m, items) && Mains(items) == 3 * n
    requires Program(m, q, form, ADC, x, y, z, n) && Spares(m.v.mpr, q, form, x, y, z, n)
    requires ProgramShown(hidden, m.v.mpr, q, form, x, y, z, n)
    requires Fit(m.v.p.d, Stored(m, form, x, n)) && Fit(m.v.p.d, Stored(m, form, y, n))
    ensures var t, d := IsaRun(m, Flat(items)), m.v.p.d;
      var sum := Number(d, Stored(m, form, x, n)) + Number(d, Stored(m, form, y, n)) + Bit(m.v.p.c);
      Number(d, Stored(t, form, z, n)) == sum % Power(d, n) && (t.v.p.c <==> sum >= Power(d, n))
  {
    hide Reaches, Program, Spares, ProgramShown, Serviced, Number, Power, Chain, Fit, Stored, Flat, Mains, IsaRun;
    ProgramServed(hidden, m, items, q, form, ADC, x, y, z, n);
    ChainSum(Stored(m, form, x, n), Stored(m, form, y, n), RegsOf(m));
  }

  /** And with SBC the difference, C clear where it borrowed. */
  lemma ProgramSubtracts(hidden: set<int>, m: Machine, items: seq<Item>, q: int, form: Form, x: nat, y: nat, z: nat,
      n: nat)
    requires Reaches(m, q) && Serviced(hidden, m, items) && Mains(items) == 3 * n
    requires Program(m, q, form, SBC, x, y, z, n) && Spares(m.v.mpr, q, form, x, y, z, n)
    requires ProgramShown(hidden, m.v.mpr, q, form, x, y, z, n)
    requires Fit(m.v.p.d, Stored(m, form, x, n)) && Fit(m.v.p.d, Stored(m, form, y, n))
    ensures var t, d := IsaRun(m, Flat(items)), m.v.p.d;
      var diff := Number(d, Stored(m, form, x, n)) - Number(d, Stored(m, form, y, n)) - (1 - Bit(m.v.p.c));
      && (t.v.p.c <==> diff >= 0)
      && Number(d, Stored(t, form, z, n)) == if diff >= 0 then diff else diff + Power(d, n)
  {
    hide Reaches, Program, Spares, ProgramShown, Serviced, Number, Power, Chain, Fit, Stored, Flat, Mains, IsaRun;
    ProgramServed(hidden, m, items, q, form, SBC, x, y, z, n);
    ChainDifference(Stored(m, form, x, n), Stored(m, form, y, n), RegsOf(m));
  }

  // ----- Through the generated table -----

  /** No BSR is run. */
  predicate NoCalls(m: Machine, ls: seq<Lines>)
    decreases |ls|
  {
    |ls| == 0 || (Chosen(m, ls[0]).0 != IBranchSub && NoCalls(Next(m, ls[0]).0, ls[1..]))
  }

  lemma BsrIs(tbit: bool)
    ensures InstrOf(0x44, tbit) == IBranchSub
  {
  }

  lemma {:induction false} NoCallsStay(table: Table, s: Cpu, es: seq<Event>, t: Cpu)
    requires IsTable(table) && AtBoundary(false, s) && Runs(table, s, es, t) && NoCalls(Visible(s), Requests(es))
    ensures BranchesStay(table, s, es)
    decreases |es|
  {
    hide Completes, Entry, EntryFor, Begin, AtBoundary, Visible, Next, Chosen, InstrOf;
    if |es| > 0 {
      var l := es[0].lines;
      var d := Begin(s, l);
      ChosenSame(s, l);
      BsrIs(d.s.core.r.p.t);
      var n, u := RunStep(table, s, l);
      var v := StepRefines(table, s, l);
      CompletesOnce(EntryFor(table, d), d.s, n, u, es[0].cycles, Ticks(EntryFor(table, d), d.s, es[0].cycles));
      CompletesOnce(EntryFor(table, d), d.s, n, u, Next(Visible(s), l).1, v);
      assert Requests(es)[1..] == Requests(es[1..]);
      NoCallsStay(table, u, es[1..], t);
    }
  }

  lemma {:induction false} ProgramCalls(m: Machine, ls: seq<Lines>, q: int, form: Form, f: AluOp, x: nat, y: nat,
      z: nat, n: nat)
    requires AtCode(m, q) && |ls| == 3 * n && Masked(m, ls) && (f == ADC || f == SBC)
    requires Program(m, q, form, f, x, y, z, n) && Spares(m.v.mpr, q, form, x, y, z, n)
    ensures NoCalls(m, ls)
    decreases n
  {
    hide ByteCode, Plus16, Place, AtCode, Program, Spares, Chain, Stored, Next, Chosen, Combined, Bare, Masked;
    AtWord(m, q);
    if n > 0 {
      FirstOf(m, q, form, f, x, y, z, n);
      MaskedThree(m, ls);
      var m1, m2, u := ByteStep(m, ls[0], ls[1], ls[2], q, form, f, x, y, z);
      ByteDone(m, u, q, form, f, x, y, z, n);
      MaskedRest(m, u, ls);
      ProgramCalls(u, ls[3..], Plus16(q, 3 * Size(form)), form, f, x + 1, y + 1, z + 1, n - 1);
      ThreeCalls(m, ls);
    }
  }

  lemma ThreeCalls(m: Machine, ls: seq<Lines>)
    requires |ls| >= 3 && Chosen(m, ls[0]).0 != IBranchSub
    requires var m1 := Next(m, ls[0]).0; var m2 := Next(m1, ls[1]).0;
      && Chosen(m1, ls[1]).0 != IBranchSub && Chosen(m2, ls[2]).0 != IBranchSub
      && NoCalls(Next(m2, ls[2]).0, ls[3..])
    ensures NoCalls(m, ls)
  {
    hide Chosen, Next;
    var m1 := Next(m, ls[0]).0;
    var m2 := Next(m1, ls[1]).0;
    assert ls[1..][1..][1..] == ls[3..];
    assert NoCalls(m2, ls[1..][1..]) && NoCalls(m1, ls[1..]);
  }

  /** The generated table runs the program: with I set, or no requests, as it is. */
  lemma TableRuns(table: Table, s: Cpu, es: seq<Event>, t: Cpu, q: int, form: Form, f: AluOp, x: nat, y: nat, z: nat,
      n: nat)
    requires IsTable(table) && AtBoundary(false, s) && Runs(table, s, es, t) && |es| == 3 * n && (f == ADC || f == SBC)
    requires AtCode(Visible(s), q) && Masked(Visible(s), Requests(es))
    requires Program(Visible(s), q, form, f, x, y, z, n) && Spares(s.core.r.mpr, q, form, x, y, z, n)
    ensures var m, u := Visible(s), Visible(t);
      var out := Chain(f, Stored(m, form, x, n), Stored(m, form, y, n), RegsOf(m));
      && AtCode(u, Plus16(q, 3 * Size(form) * n)) && u.v.p == out.1 && Stored(u, form, z, n) == out.0
      && forall a :: !InResult(m.v.mpr, form, z, n, a) ==> Read(t.mem, a) == Read(s.mem, a)
  {
    hide Plus16, Place, AtCode, Program, Spares, Chain, Stored, IsaRun, AtBoundary, Runs, BranchesStay, InResult, Read,
      Masked, NoCalls;
    var m := Visible(s);
    ProgramCalls(m, Requests(es), q, form, f, x, y, z, n);
    NoCallsStay(table, s, es, t);
    RunsRefine(table, s, es, t);
    ProgramRuns(m, Requests(es), q, form, f, x, y, z, n);
  }

  /** And with interrupts served in between. */
  lemma TableServed(hidden: set<int>, table: Table, s: Cpu, es: seq<Event>, t: Cpu, items: seq<Item>, q: int,
      form: Form, f: AluOp, x: nat, y: nat, z: nat, n: nat)
    requires IsTable(table) && AtBoundary(false, s) && Runs(table, s, es, t) && BranchesStay(table, s, es)
    requires Requests(es) == Flat(items) && Serviced(hidden, Visible(s), items) && Mains(items) == 3 * n
    requires Reaches(Visible(s), q) && (f == ADC || f == SBC)
    requires Program(Visible(s), q, form, f, x, y, z, n) && Spares(s.core.r.mpr, q, form, x, y, z, n)
    requires ProgramShown(hidden, s.core.r.mpr, q, form, x, y, z, n)
    ensures var m, u := Visible(s), Visible(t);
      var out := Chain(f, Stored(m, form, x, n), Stored(m, form, y, n), RegsOf(m));
      && u.v.pc == Inc16(Plus16(q, 3 * Size(form) * n)) && u.v.p == out.1.(b := u.v.p.b)
      && Stored(u, form, z, n) == out.0
      && forall a :: a !in hidden && !InResult(m.v.mpr, form, z, n, a) ==> Read(t.mem, a) == Read(s.mem, a)
  {
    hide Plus16, Place, Reaches, Program, Spares, Chain, Stored, IsaRun, AtBoundary, Runs, BranchesStay, InResult, Read,
      ProgramShown, Serviced, Flat, Mains;
    RunsRefine(table, s, es, t);
    ProgramServed(hidden, Visible(s), items, q, form, f, x, y, z, n);
  }
}
