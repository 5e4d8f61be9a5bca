/** The block-move instructions, from their microcode to the copy they make. */
module HucBlockMove {
  import opened HucMachine
  import opened HucMicrocode
  import opened HucCertify
  import opened HucSwitchgen
  import opened HucText
  import opened HucExec
  import opened HucOperands
  import opened HucTMode

  // ----- The byte-at-a-time copy -----

  /** A copy under way: next source and target, whether the zigzag is on its way back, memory. */
  datatype Copying = Copying(src: int, dst: int, back: bool, mem: map<int, byte>)

  function Zig(v: int, back: bool): int {
    (v + if back then -1 else 1) % 65536
  }

  function NextSource(k: MoveKind, v: int, back: bool): int {
    match k
    case TDD => Dec16(v)
    case TAI => Zig(v, back)
    case _ => Inc16(v)
  }

  function NextTarget(k: MoveKind, v: int, back: bool): int {
    match k
    case TDD => Dec16(v)
    case TIN => v
    case TIA => Zig(v, back)
    case _ => Inc16(v)
  }

  function CopyByte(k: MoveKind, mpr: File8, x: Copying): (y: Copying)
    requires Word16(x.src) && Word16(x.dst)
    ensures Word16(y.src) && Word16(y.dst)
  {
    Copying(NextSource(k, x.src, x.back), NextTarget(k, x.dst, x.back), !x.back,
            x.mem[Phys(mpr, x.dst) := Read(x.mem, Phys(mpr, x.src))])
  }

  function Copy(k: MoveKind, mpr: File8, x: Copying, n: nat): (y: Copying)
    requires Word16(x.src) && Word16(x.dst)
    ensures Word16(y.src) && Word16(y.dst)
    decreases n
  {
    if n == 0 then x else Copy(k, mpr, CopyByte(k, mpr, x), n - 1)
  }

  /** A length operand of 0 means 65536. */
  function Bytes(len: int): nat
    requires Word16(len)
  {
    if len == 0 then 65536 else len
  }

  /** What the instruction at `s` copies: its operands are read after Y, A and X were pushed. */
  function Pushed(s: Cpu): map<int, byte>
    requires Fits(Byte, s.core.r.a) && Fits(Byte, s.core.r.x) && Fits(Byte, s.core.r.y)
  {
    var r := s.core.r;
    s.mem[Slot1(r) := r.y][Slot2(r) := r.a][Slot3(r) := r.x]
  }

  function Slot1(r: Regs): int { StackAddr(r.mpr, r.sp) }

  function Slot2(r: Regs): int { StackAddr(r.mpr, Dec8(r.sp)) }

  function Slot3(r: Regs): int { StackAddr(r.mpr, Dec8(Dec8(r.sp))) }

  function WordAt(mpr: File8, mem: map<int, byte>, pc: int): (v: int)
    requires Word16(pc)
    ensures Word16(v)
  {
    var lo, hi := Read(mem, Phys(mpr, pc)), Read(mem, Phys(mpr, Inc16(pc)));
    WordIs(lo, hi);
    Word(lo, hi)
  }

  function Plus16(v: int, n: int): int { (v + n) % 65536 }

  function FirstByte(s: Cpu): (x: Copying)
    requires SaneRegs(AT_BOUNDARY, s.core.r)
    ensures Word16(x.src) && Word16(x.dst)
  {
    var r := s.core.r;
    Copying(WordAt(r.mpr, Pushed(s), r.pc), WordAt(r.mpr, Pushed(s), Plus16(r.pc, 2)), false, Pushed(s))
  }

  function Length(s: Cpu): nat
    requires SaneRegs(AT_BOUNDARY, s.core.r)
  {
    Bytes(WordAt(s.core.r.mpr, Pushed(s), Plus16(s.core.r.pc, 4)))
  }

  // ----- Setup: thirteen cases -----

  /** `u` is `e` with other scratch: D, Addr and the TR registers. */
  predicate SameShell(c: Core, e: Core) {
    c == e.(d := c.d, addr := c.addr, r := e.r.(tr := c.r.tr))
  }

  /** The byte at PC is on order. */
  predicate Asking(u: Cpu, n: nat, e: Core, mem: map<int, byte>) {
    && Word16(e.r.pc) && SameShell(u.core, e) && u == Asked(u.core, n, mem) && u.core.addr == Phys(e.r.mpr, e.r.pc)
    && forall i :: 0 <= i < 8 ==> Fits(Full, u.core.r.tr[i])
  }

  function AtPC(e: Core, pc: int): Core {
    e.(r := e.r.(pc := pc))
  }

  lemma FirstOperand(cs: seq<Cycle>, s: Cpu, n: nat, u: Cpu, e: Core, i: Slot) returns (v: Cpu)
    requires 0 < u.tcu && u.tcu + 1 < |cs| && Within(cs, s, n, u) && Asking(u, u.tcu, e, u.mem)
    requires cs[u.tcu] == C([Take(RTR(i)), INC_PC, ADDR_PC], READ)
    ensures Within(cs, s, n + 1, v) && Asking(v, u.tcu + 1, AtPC(e, Inc16(e.r.pc)), u.mem)
    ensures v.core.r.tr == u.core.r.tr[i := Read(u.mem, Phys(e.r.mpr, e.r.pc))]
  {
    hide Do, Phys, Micros, RefTick, Within;
    var b := Read(u.mem, Phys(e.r.mpr, e.r.pc));
    var l := Latched(u);
    TakeNextMicros(l, RTR(i));
    var c := TakeNext(l, RTR(i));
    assert [Take(RTR(i)), INC_PC] + [ADDR_PC] == [Take(RTR(i)), INC_PC, ADDR_PC];
    AskPcTick(cs, u, [Take(RTR(i)), INC_PC], c);
    v := Asked(c.(addr := Phys(c.r.mpr, c.r.pc)), u.tcu + 1, u.mem);
    WithinMore(cs, s, n, u);
  }

  lemma JoinTRDo(c: Core, i: Slot, j: Slot)
    ensures Do(JoinTR(i, j).m, c) == c.(r := c.r.(tr := c.r.tr[i := Word(c.r.tr[i], c.r.tr[j])]))
  {
    hide Word;
  }

  lemma JoinedMicros(l: Core, i: Slot, j: Slot)
    requires Fits(Byte, l.d) && i != j && Fits(Byte, l.r.tr[i])
    ensures var w := Word(l.r.tr[i], l.d);
      Micros([Take(RTR(j)), INC_PC, JoinTR(i, j)], l) ==
        l.(r := l.r.(pc := Inc16(l.r.pc), tr := l.r.tr[j := l.d][i := w]))
  {
    hide Do, Word;
    Micros3(Take(RTR(j)).m, INC_PC.m, JoinTR(i, j).m, l);
    TakeDo(l, RTR(j));
    var c := l.(r := l.r.(tr := l.r.tr[j := l.d]));
    IncPcDo(c);
    JoinTRDo(c.(r := c.r.(pc := Inc16(c.r.pc))), i, j);
  }

  lemma SecondOperand(cs: seq<Cycle>, s: Cpu, n: nat, u: Cpu, e: Core, i: Slot, j: Slot) returns (v: Cpu)
    requires 0 < u.tcu && u.tcu + 1 < |cs| && Within(cs, s, n, u) && Asking(u, u.tcu, e, u.mem)
    requires i != j && Fits(Byte, u.core.r.tr[i])
    requires cs[u.tcu] == C([Take(RTR(j)), INC_PC, JoinTR(i, j), ADDR_PC], READ)
    ensures Within(cs, s, n + 1, v) && Asking(v, u.tcu + 1, AtPC(e, Inc16(e.r.pc)), u.mem)
    ensures var b := Read(u.mem, Phys(e.r.mpr, e.r.pc));
      v.core.r.tr == u.core.r.tr[j := b][i := Word(u.core.r.tr[i], b)]
  {
    hide Do, Phys, Micros, RefTick, Within, Word;
    var ops := [Take(RTR(j)), INC_PC, JoinTR(i, j)];
    var l := Latched(u);
    JoinedMicros(l, i, j);
    WordIs(l.r.tr[i], l.d);
    var c := Micros(ops, l);
    assert ops + [ADDR_PC] == [Take(RTR(j)), INC_PC, JoinTR(i, j), ADDR_PC];
    AskPcTick(cs, u, ops, c);
    v := Asked(c.(addr := Phys(c.r.mpr, c.r.pc)), u.tcu + 1, u.mem);
    WithinMore(cs, s, n, u);
  }

  lemma LastOperand(cs: seq<Cycle>, s: Cpu, n: nat, u: Cpu, e: Core, i: Slot, j: Slot) returns (v: Cpu)
    requires 0 < u.tcu && u.tcu + 1 < |cs| && Within(cs, s, n, u) && Asking(u, u.tcu, e, u.mem)
    requires i != j && Fits(Byte, u.core.r.tr[i])
    requires cs[u.tcu] == C([Take(RTR(j)), INC_PC, JoinTR(i, j)], IDLE)
    ensures Within(cs, s, n + 1, v) && v == Cpu(v.core, u.tcu + 1, false, false, u.mem)
    ensures SameShell(v.core, AtPC(e, Inc16(e.r.pc))) && Word16(v.core.r.pc)
    ensures var b := Read(u.mem, Phys(e.r.mpr, e.r.pc));
      v.core.r.tr == u.core.r.tr[j := b][i := Word(u.core.r.tr[i], b)] && Fits(Byte, v.core.d)
  {
    hide Do, Phys, Micros, RefTick, Within, Word;
    var ops := [Take(RTR(j)), INC_PC, JoinTR(i, j)];
    var l := Latched(u);
    JoinedMicros(l, i, j);
    StraightTick(cs, u, ops, IDLE, Micros(ops, l));
    v := RefTick(cs, u);
    WithinMore(cs, s, n, u);
  }

  lemma BodyCount(k: MoveKind)
    ensures |BlockBody(k)| == 6
  {
    hide MoveOps;
  }

  lemma SetupIs(k: MoveKind)
    ensures var cs := BlockCode(k);
      && |cs| == 23
      && cs[0] == C([ADDR_PC], READ) && cs[1] == C([], IDLE)
      && cs[2] == C(PushOps(Reg(RY)), WRITE) && cs[3] == C(PushOps(Reg(RA)), WRITE) &&
        cs[4] == C(PushOps(Reg(RX)), WRITE)
      && cs[5] == C([ADDR_PC], READ)
      && cs[12] == C([Just(BlockMode(true)), Just(Move(RTR(3), Num(0)))], IDLE)
  {
    hide EndOps, BlockBody;
    BodyCount(k);
  }

  lemma OperandsAre(k: MoveKind)
    ensures var cs := BlockCode(k);
      && |cs| == 23
      && cs[6] == C([Take(RTR(0)), INC_PC, ADDR_PC], READ)
      && cs[7] == C([Take(RTR(6)), INC_PC, JoinTR(0, 6), ADDR_PC], READ)
      && cs[8] == C([Take(RTR(1)), INC_PC, ADDR_PC], READ)
      && cs[9] == C([Take(RTR(5)), INC_PC, JoinTR(1, 5), ADDR_PC], READ)
      && cs[10] == C([Take(RTR(2)), INC_PC, ADDR_PC], READ)
      && cs[11] == C([Take(RTR(5)), INC_PC, JoinTR(2, 5)], IDLE)
  {
    hide EndOps, BlockBody;
    BodyCount(k);
  }

  lemma BodyIs(k: MoveKind)
    ensures var cs := BlockCode(k);
      && |cs| == 23
      && forall i :: 0 <= i < 6 ==> cs[13 + i] == BlockBody(k)[i]
  {
    hide EndOps;
  }

  lemma FinishIs(k: MoveKind)
    ensures var cs := BlockCode(k);
      && |cs| == 23
      && cs[19] == C(PULL_OPS, READ)
      && cs[20] == C([Take(RX), Just(BlockMode(false))] + PULL_OPS, READ)
      && cs[21] == C([Take(RA)] + PULL_OPS, READ)
      && cs[22] == Ending([Take(RY)], true, true)
  {
    hide EndOps, BlockBody;
    BodyCount(k);
  }

  /** One push. */
  lemma PushStep(cs: seq<Cycle>, s: Cpu, n: nat, u: Cpu, e: Core, g: Reg) returns (v: Cpu)
    requires 0 < u.tcu && u.tcu + 1 < |cs| && Within(cs, s, n, u) && SameShell(u.core, e) && u.core.r.tr == e.r.tr
    requires cs[u.tcu] == C(PushOps(Reg(g)), WRITE) && !g.RTR? && Fits(Byte, Get(e.r, g))
    ensures Within(cs, s, n + 1, v)
    ensures v == Cpu(v.core, u.tcu + 1, false, true, u.mem[StackAddr(e.r.mpr, e.r.sp) := Get(e.r, g)])
    ensures SameShell(v.core, e.(r := e.r.(sp := Dec8(e.r.sp)))) && v.core.r.tr == e.r.tr
  {
    hide StackAddr, RefTick, Within;
    PushTick(cs, u, Reg(g));
    WithinMore(cs, s, n, u);
    v := RefTick(cs, u);
  }

  function Below(c: Core): Core {
    c.(r := c.r.(sp := Dec8(c.r.sp)))
  }

  /** Cases 1 and 2. */
  lemma DummyPhase(k: MoveKind, s: Cpu) returns (u: Cpu)
    requires Ready(s)
    ensures Within(BlockCode(k), s, 2, u) && u == Cpu(u.core, 2, false, false, s.mem)
    ensures SameShell(u.core, s.core) && u.core.r.tr == s.core.r.tr
  {
    hide Do, Phys, Micros, RefTick, BlockCode;
    var cs, c := BlockCode(k), Latched(s);
    SetupIs(k);
    WithinNone(cs, s);
    MicrosNone(c);
    assert [] + [ADDR_PC] == [ADDR_PC];
    AskPcTick(cs, s, [], c);
    WithinMore(cs, s, 0, s);
    var t1 := RefTick(cs, s);
    IdleTick(cs, t1);
    WithinMore(cs, s, 1, t1);
    u := RefTick(cs, t1);
  }

  /** Cases 1 to 6: dummy read, idle, three pushes, the first operand on order. */
  lemma PushPhase(k: MoveKind, s: Cpu) returns (u: Cpu)
    requires Ready(s)
    ensures Within(BlockCode(k), s, 6, u)
    ensures Asking(u, 6, Below(Below(Below(s.core))), Pushed(s)) && u.core.r.tr == s.core.r.tr
  {
    hide Phys, StackAddr, Micros, RefTick, BlockCode, Within;
    var cs, e := BlockCode(k), s.core;
    SetupIs(k);
    u := DummyPhase(k, s);
    u := PushStep(cs, s, 2, u, e, RY);
    u := PushStep(cs, s, 3, u, Below(e), RA);
    u := PushStep(cs, s, 4, u, Below(Below(e)), RX);
    MicrosNone(u.core);
    assert [] + [ADDR_PC] == [ADDR_PC];
    AskPcTick(cs, u, [], u.core);
    WithinMore(cs, s, 5, u);
    u := RefTick(cs, u);
  }

  // ----- The loop: six cases a byte -----

  /** The core of a block move from its loop on, scratch aside. */
  function LoopCore(s: Cpu): Core {
    var c := Below(Below(Below(s.core)));
    c.(bm := true, r := c.r.(pc := Plus16(s.core.r.pc, 6)))
  }

  /** Between two bytes: `left` more to copy, 0 standing for the end. */
  predicate InLoop(u: Cpu, n: nat, e: Core, x: Copying, left: int) {
    && u == Cpu(u.core, n, false, false, x.mem) && SameShell(u.core, e) && Fits(Byte, u.core.d)
    && var tr := u.core.r.tr;
    && tr[0] == x.src && tr[1] == x.dst && tr[2] == left && tr[3] == (if x.back then 1 else 0)
    && Word16(x.src) && Word16(x.dst) && Word16(left)
    && forall i :: 0 <= i < 8 ==> Fits(Full, tr[i])
  }

  lemma ModAdd(a: int, b: int)
    ensures (a % 65536 + b) % 65536 == (a + b) % 65536
  {
    var q := a / 65536;
    assert a == 65536 * q + a % 65536;
  }

  lemma IncPlus(pc: int, n: int)
    ensures Inc16(Plus16(pc, n)) == Plus16(pc, n + 1) && Word16(Plus16(pc, n))
  {
    ModAdd(pc + n, 1);
  }

  lemma Twice(pc: int)
    requires Word16(pc)
    ensures Word16(Inc16(pc)) && Word16(Plus16(pc, 2)) && Word16(Plus16(pc, 4))
    ensures Inc16(Inc16(pc)) == Plus16(pc, 2)
    ensures Inc16(Inc16(Plus16(pc, 2))) == Plus16(pc, 4) && Inc16(Inc16(Plus16(pc, 4))) == Plus16(pc, 6)
  {
    PlusNone(pc);
    hide Inc16, Plus16;
    IncPlus(pc, 0);
    IncPlus(pc, 1);
    IncPlus(pc, 2);
    IncPlus(pc, 3);
    IncPlus(pc, 4);
    IncPlus(pc, 5);
  }

  lemma PlusNone(pc: int)
    requires Word16(pc)
    ensures Plus16(pc, 0) == pc
  {
  }

  /** Cases 7 to 10: source and target. */
  lemma SourceAndTarget(k: MoveKind, s: Cpu) returns (u: Cpu)
    requires Ready(s)
    ensures Within(BlockCode(k), s, 10, u)
    ensures Asking(u, 10, AtPC(Below(Below(Below(s.core))), Plus16(s.core.r.pc, 4)), Pushed(s))
    ensures u.core.r.tr[0] == FirstByte(s).src && u.core.r.tr[1] == FirstByte(s).dst
  {
    hide Phys, StackAddr, BlockCode, Within, Word, Pushed, Inc16, Plus16;
    var cs, e, pc := BlockCode(k), Below(Below(Below(s.core))), s.core.r.pc;
    OperandsAre(k);
    Twice(pc);
    u := PushPhase(k, s);
    u := FirstOperand(cs, s, 6, u, e, 0);
    u := SecondOperand(cs, s, 7, u, AtPC(e, Inc16(pc)), 0, 6);
    u := FirstOperand(cs, s, 8, u, AtPC(e, Plus16(pc, 2)), 1);
    u := SecondOperand(cs, s, 9, u, AtPC(e, Inc16(Plus16(pc, 2))), 1, 5);
  }

  /** Cases 7 to 12: three operand words. */
  lemma OperandPhase(k: MoveKind, s: Cpu) returns (u: Cpu)
    requires Ready(s)
    ensures Within(BlockCode(k), s, 12, u) && u == Cpu(u.core, 12, false, false, Pushed(s)) && Fits(Byte, u.core.d)
    ensures SameShell(u.core, AtPC(Below(Below(Below(s.core))), Plus16(s.core.r.pc, 6)))
    ensures var x := FirstByte(s); var tr := u.core.r.tr;
      && x.mem == Pushed(s) && !x.back && tr[0] == x.src && tr[1] == x.dst && tr[2] == Length(s) % 65536
      && forall i :: 0 <= i < 8 ==> Fits(Full, tr[i])
  {
    hide Phys, StackAddr, BlockCode, Within, Word, Pushed, Inc16, Plus16;
    var cs, e, pc := BlockCode(k), Below(Below(Below(s.core))), s.core.r.pc;
    OperandsAre(k);
    Twice(pc);
    u := SourceAndTarget(k, s);
    u := FirstOperand(cs, s, 10, u, AtPC(e, Plus16(pc, 4)), 2);
    var v := u;
    u := LastOperand(cs, s, 11, u, AtPC(e, Inc16(Plus16(pc, 4))), 2, 5);
    WordIs(v.core.r.tr[2], Read(v.mem, Phys(e.r.mpr, Inc16(Plus16(pc, 4)))));
  }

  lemma StartDo(c: Core)
    ensures Do(BlockMode(true), c) == c.(bm := true) && Do(BlockMode(false), c) == c.(bm := false)
    ensures Do(Move(RTR(3), Num(0)), c) == c.(r := c.r.(tr := c.r.tr[3 := 0]))
  {
  }

  /** Cases 1 to 13. */
  lemma Setup(k: MoveKind, s: Cpu) returns (u: Cpu)
    requires Ready(s)
    ensures Within(BlockCode(k), s, 13, u)
    ensures InLoop(u, 13, LoopCore(s), FirstByte(s), Length(s) % 65536)
  {
    hide Do, BlockCode, Within, Pushed, FirstByte, Length, RefTick, Below;
    SetupIs(k);
    var v := OperandPhase(k, s);
    Micros2(BlockMode(true), Move(RTR(3), Num(0)), v.core);
    StartDo(v.core);
    StartDo(v.core.(bm := true));
    StraightTick(BlockCode(k), v, [Just(BlockMode(true)), Just(Move(RTR(3), Num(0)))], IDLE,
      v.core.(bm := true, r := v.core.r.(tr := v.core.r.tr[3 := 0])));
    u := RefTick(BlockCode(k), v);
    WithinMore(BlockCode(k), s, 12, v);
  }

  lemma LoopTick(cs: seq<Cycle>, s: Cpu, op: Op, c: Core)
    requires 0 <= s.tcu < |cs| && cs[s.tcu] == Cycle([op], Loop, IDLE, []) && op.Just?
    requires Micros([op], Latched(s)) == c
    ensures RefTick(cs, s) == Cpu(c, s.tcu + (if c.r.tr[2] != 0 then -5 else 1), false, false, s.mem)
  {
    hide Do;
    RunMicros([op], Latch(s));
  }

  lemma CopyDo(c: Core)
    requires Word16(c.r.tr[0]) && Word16(c.r.tr[1])
    ensures Do(AddrMapped(Reg(RTR(0))), c) == c.(addr := Phys(c.r.mpr, c.r.tr[0]))
    ensures Do(AddrMapped(Reg(RTR(1))), c) == c.(addr := Phys(c.r.mpr, c.r.tr[1]))
    ensures Do(Out(Reg(RTR(4))), c) == c.(d := c.r.tr[4])
    ensures Do(Sum(RTR(2), Reg(RTR(2)), Num(-1), W16), c) == c.(r := c.r.(tr := c.r.tr[2 := Dec16(c.r.tr[2])]))
  {
    hide Phys;
  }

  /** Cases 14 to 16: the byte moves. */
  lemma MoveByte(k: MoveKind, s: Cpu, n: nat, u: Cpu, e: Core, x: Copying, left: int) returns (v: Cpu)
    requires Within(BlockCode(k), s, n, u) && InLoop(u, 13, e, x, left)
    ensures Within(BlockCode(k), s, n + 3, v)
    ensures var b := Read(x.mem, Phys(e.r.mpr, x.src));
      v == Cpu(v.core, 16, false, true, x.mem[Phys(e.r.mpr, x.dst) := b]) && v.core.d == b
    ensures SameShell(v.core, e) && v.core.r.tr == u.core.r.tr[4 := v.core.d]
  {
    hide Do, Phys, BlockCode, Within, RefTick;
    var cs, c := BlockCode(k), u.core;
    BodyIs(k);
    assert cs[13] == BlockBody(k)[0] && cs[14] == BlockBody(k)[1] && cs[15] == BlockBody(k)[2];
    CopyDo(c);
    Micros1(AddrMapped(Reg(RTR(0))), c);
    StraightTick(cs, u, [Just(AddrMapped(Reg(RTR(0))))], READ, c.(addr := Phys(e.r.mpr, x.src)));
    WithinMore(cs, s, n, u);
    var t1 := RefTick(cs, u);
    var l := Latched(t1);
    TakeDo(l, RTR(4));
    Micros1(Take(RTR(4)).m, l);
    var c2 := l.(r := l.r.(tr := l.r.tr[4 := l.d]));
    StraightTick(cs, t1, [Take(RTR(4))], IDLE, c2);
    WithinMore(cs, s, n + 1, t1);
    var t2 := RefTick(cs, t1);
    CopyDo(c2);
    var c3 := c2.(addr := Phys(e.r.mpr, x.dst));
    CopyDo(c3);
    Micros2(AddrMapped(Reg(RTR(1))), Out(Reg(RTR(4))), c2);
    StraightTick(cs, t2, [Just(AddrMapped(Reg(RTR(1)))), Just(Out(Reg(RTR(4))))], WRITE, c3.(d := l.d));
    WithinMore(cs, s, n + 2, t2);
    v := RefTick(cs, t2);
  }

  lemma StepDo(c: Core)
    ensures Do(MoveOps(TII)[0].m, c) == c.(r := c.r.(tr := c.r.tr[0 := Inc16(c.r.tr[0])]))
    ensures Do(MoveOps(TII)[1].m, c) == c.(r := c.r.(tr := c.r.tr[1 := Inc16(c.r.tr[1])]))
    ensures Do(MoveOps(TDD)[0].m, c) == c.(r := c.r.(tr := c.r.tr[0 := Dec16(c.r.tr[0])]))
    ensures Do(MoveOps(TDD)[1].m, c) == c.(r := c.r.(tr := c.r.tr[1 := Dec16(c.r.tr[1])]))
  {
  }

  lemma ZigDo(c: Core, back: bool)
    requires c.r.tr[3] == (if back then 1 else 0)
    ensures Do(MoveOps(TIA)[1].m, c) == c.(r := c.r.(tr := c.r.tr[1 := Zig(c.r.tr[1], back)]))
    ensures Do(MoveOps(TAI)[0].m, c) == c.(r := c.r.(tr := c.r.tr[0 := Zig(c.r.tr[0], back)]))
    ensures Do(Toggle(RTR(3)), c) == c.(r := c.r.(tr := c.r.tr[3 := if back then 0 else 1]))
  {
  }

  lemma SameSteps()
    ensures MoveOps(TIN) == [MoveOps(TII)[0]] && MoveOps(TIA)[0] == MoveOps(TII)[0] &&
      MoveOps(TAI)[1] == MoveOps(TII)[1]
    ensures forall k, op | op in MoveOps(k) :: op.Just?
    ensures forall k | k != TIN :: MoveOps(k) == [MoveOps(k)[0], MoveOps(k)[1]]
  {
  }

  /** What the al_T* statements do to the TR registers. */
  lemma MoveMicros(k: MoveKind, c: Core, back: bool)
    requires c.r.tr[3] == (if back then 1 else 0)
    ensures forall op <- MoveOps(k) :: op.Just?
    ensures Micros(MoveOps(k), c)
         == c.(r := c.r.(tr := c.r.tr[0 := NextSource(k, c.r.tr[0], back)][1 := NextTarget(k, c.r.tr[1], back)]))
  {
    hide Do, Zig, Inc16, Dec16, MoveOps, Micros;
    SameSteps();
    var ops := MoveOps(k);
    StepDo(c);
    ZigDo(c, back);
    if k == TIN {
      Micros1(ops[0].m, c);
    } else {
      var c1 := Do(ops[0].m, c);
      StepDo(c1);
      ZigDo(c1, back);
      Micros2(ops[0].m, ops[1].m, c);
    }
  }

  lemma AdvanceMicros(k: MoveKind, c: Core, back: bool)
    requires c.r.tr[3] == (if back then 1 else 0)
    ensures forall op <- MoveOps(k) + [Just(Toggle(RTR(3)))] :: op.Just?
    ensures Micros(MoveOps(k) + [Just(Toggle(RTR(3)))], c)
         == c.(r := c.r.(tr := c.r.tr[0 := NextSource(k, c.r.tr[0], back)][1 := NextTarget(k, c.r.tr[1],
           back)][3 := if back then 0 else 1]))
  {
    hide Do, MoveOps, Micros, NextSource, NextTarget;
    MoveMicros(k, c, back);
    MicrosAppend(MoveOps(k), [Just(Toggle(RTR(3)))], c);
    var c1 := Micros(MoveOps(k), c);
    ZigDo(c1, back);
    Micros1(Toggle(RTR(3)), c1);
  }

  /** Case 17. */
  lemma Advance(k: MoveKind, s: Cpu, n: nat, u: Cpu, e: Core, back: bool) returns (v: Cpu)
    requires Within(BlockCode(k), s, n, u) && u == Cpu(u.core, 16, false, true, u.mem) && SameShell(u.core, e)
    requires u.core.r.tr[3] == (if back then 1 else 0)
    ensures Within(BlockCode(k), s, n + 1, v) && v == Cpu(v.core, 17, false, false, u.mem)
    ensures SameShell(v.core, e) && v.core.d == u.core.d
    ensures var tr := u.core.r.tr;
      v.core.r.tr == tr[0 := NextSource(k, tr[0], back)][1 := NextTarget(k, tr[1], back)][3 := if back then 0 else 1]
  {
    hide Do, BlockCode, Within, RefTick, MoveOps, NextSource, NextTarget, Micros;
    BodyIs(k);
    assert BlockCode(k)[13 + 3] == BlockBody(k)[3];
    AdvanceMicros(k, u.core, back);
    var ops := MoveOps(k) + [Just(Toggle(RTR(3)))];
    StraightTick(BlockCode(k), u, ops, IDLE, Micros(ops, u.core));
    WithinMore(BlockCode(k), s, n, u);
    v := RefTick(BlockCode(k), u);
  }

  /** Cases 18 and 19. */
  lemma CountDown(k: MoveKind, s: Cpu, n: nat, u: Cpu, e: Core) returns (v: Cpu)
    requires Within(BlockCode(k), s, n, u) && u == Cpu(u.core, 17, false, false, u.mem) && SameShell(u.core, e)
    requires Word16(u.core.r.tr[0]) && Word16(u.core.r.tr[1])
    ensures Within(BlockCode(k), s, n + 2, v)
    ensures var left := Dec16(u.core.r.tr[2]);
      && v == Cpu(v.core, if left != 0 then 13 else 19, false, false, u.mem)
      && SameShell(v.core, e) && v.core.d == u.core.d && v.core.r.tr == u.core.r.tr[2 := left]
  {
    hide Do, BlockCode, Within, RefTick, MoveOps, Micros;
    var cs := BlockCode(k);
    BodyIs(k);
    assert cs[13 + 4] == BlockBody(k)[4] && cs[13 + 5] == BlockBody(k)[5];
    IdleTick(cs, u);
    WithinMore(cs, s, n, u);
    var t := RefTick(cs, u);
    CopyDo(t.core);
    Micros1(Sum(RTR(2), Reg(RTR(2)), Num(-1), W16), t.core);
    LoopTick(cs, t, Just(Sum(RTR(2), Reg(RTR(2)), Num(-1), W16)), Do(Sum(RTR(2), Reg(RTR(2)), Num(-1), W16), t.core));
    WithinMore(cs, s, n + 1, t);
    v := RefTick(cs, t);
  }

  /** Cases 14 to 19: one byte is copied; back to case 14 while any is left. */
  lemma LoopOnce(k: MoveKind, s: Cpu, n: nat, u: Cpu, e: Core, x: Copying, left: int) returns (v: Cpu)
    requires Within(BlockCode(k), s, n, u) && InLoop(u, 13, e, x, left)
    ensures Within(BlockCode(k), s, n + 6, v)
    ensures InLoop(v, if Dec16(left) != 0 then 13 else 19, e, CopyByte(k, e.r.mpr, x), Dec16(left))
  {
    hide Phys, BlockCode, Within, NextSource, NextTarget;
    v := MoveByte(k, s, n, u, e, x, left);
    v := Advance(k, s, n + 3, v, e, x.back);
    NextAreWords(k, x);
    v := CountDown(k, s, n + 4, v, e);
  }

  lemma NextAreWords(k: MoveKind, x: Copying)
    requires Word16(x.src) && Word16(x.dst)
    ensures Word16(NextSource(k, x.src, x.back)) && Word16(NextTarget(k, x.dst, x.back))
  {
  }

  /** The loop copies every byte and falls out, six cycles a byte. */
  lemma {:induction false} LoopAll(k: MoveKind, s: Cpu, n: nat, u: Cpu, e: Core, x: Copying, left: int) returns (v: Cpu)
    requires Within(BlockCode(k), s, n, u) && InLoop(u, 13, e, x, left)
    ensures Within(BlockCode(k), s, n + 6 * Bytes(left), v)
    ensures InLoop(v, 19, e, Copy(k, e.r.mpr, x, Bytes(left)), 0)
    decreases Bytes(left)
  {
    hide BlockCode, Within, CopyByte, Phys;
    assert Word16(left) && Word16(x.src) && Word16(x.dst);
    v := LoopOnce(k, s, n, u, e, x, left);
    if Dec16(left) != 0 {
      v := LoopAll(k, s, n + 6, v, e, CopyByte(k, e.r.mpr, x), Dec16(left));
    } else {
      assert Copy(k, e.r.mpr, CopyByte(k, e.r.mpr, x), 0) == CopyByte(k, e.r.mpr, x);
    }
  }

  // ----- Three pulls, and the whole instruction -----

  /** The core when the fetch of the next opcode begins. */
  function Finished(s: Cpu, mem: map<int, byte>): Core {
    var r := s.core.r;
    s.core.(bm := false,
      r := r.(y := Read(mem, Slot1(r)), a := Read(mem, Slot2(r)), x := Read(mem, Slot3(r)), pc := Plus16(r.pc, 6)))
  }

  lemma DownAndUp(sp: int)
    requires Fits(Byte, sp)
    ensures Inc8(Dec8(sp)) == sp && Fits(Byte, Dec8(sp))
  {
  }

  lemma StackPointers(sp: int)
    requires Fits(Byte, sp)
    ensures Inc8(Dec8(sp)) == sp && Inc8(Dec8(Dec8(sp))) == Dec8(sp) && Inc8(Dec8(Dec8(Dec8(sp)))) == Dec8(Dec8(sp))
  {
    hide Inc8, Dec8;
    DownAndUp(sp);
    DownAndUp(Dec8(sp));
    DownAndUp(Dec8(Dec8(sp)));
  }

  lemma PullMicros(l: Core)
    requires Fits(Byte, l.d)
    ensures Micros([Take(RX), Just(BlockMode(false))], l) == l.(bm := false, r := l.r.(x := l.d))
    ensures Micros([Take(RA)], l) == l.(r := l.r.(a := l.d))
    ensures Micros([Take(RY)], l) == l.(r := l.r.(y := l.d))
  {
    hide Do;
    TakeDo(l, RX);
    TakeDo(l, RA);
    TakeDo(l, RY);
    StartDo(l.(r := l.r.(x := l.d)));
    Micros2(Take(RX).m, BlockMode(false), l);
    Micros1(Take(RA).m, l);
    Micros1(Take(RY).m, l);
  }

  /** Cases 20 to 22. */
  lemma Pulls(k: MoveKind, s: Cpu, n: nat, u: Cpu, x: Copying) returns (v: Cpu)
    requires Ready(s) && Within(BlockCode(k), s, n, u) && InLoop(u, 19, LoopCore(s), x, 0)
    ensures Within(BlockCode(k), s, n + 3, v) && v == Asked(v.core, 22, x.mem)
    ensures v.core.r.tr == u.core.r.tr && v.core.addr == Slot1(s.core.r)
    ensures SameShell(v.core.(r := v.core.r.(y := Read(x.mem, v.core.addr))), Finished(s, x.mem))
  {
    hide StackAddr, BlockCode, Within, RefTick, Micros;
    var cs, sp := BlockCode(k), s.core.r.sp;
    FinishIs(k);
    StackPointers(sp);
    MicrosNone(u.core);
    assert [] + PULL_OPS == PULL_OPS;
    PullTick(cs, u, [], u.core);
    WithinMore(cs, s, n, u);
    var t1 := RefTick(cs, u);
    PullMicros(Latched(t1));
    PullTick(cs, t1, [Take(RX), Just(BlockMode(false))], Micros([Take(RX), Just(BlockMode(false))], Latched(t1)));
    WithinMore(cs, s, n + 1, t1);
    var t2 := RefTick(cs, t1);
    PullMicros(Latched(t2));
    PullTick(cs, t2, [Take(RA)], Micros([Take(RA)], Latched(t2)));
    WithinMore(cs, s, n + 2, t2);
    v := RefTick(cs, t2);
  }

  lemma SetupPlain(i: nat)
    requires i < 13
    ensures |BlockSetup()| == 13 && BlockSetup()[12].pins == IDLE && HucTMode.Plain(BlockSetup()[i])
  {
    hide EndOps;
  }

  lemma FinishPlain(i: nat)
    requires i < 3
    ensures |BlockFinish()| == 4 && HucTMode.Plain(BlockFinish()[i])
  {
    hide EndOps;
  }

  lemma BodyFits(k: MoveKind, cs: seq<Cycle>, i: nat)
    requires 13 <= i < 19 < |cs| && cs[12].pins == IDLE && forall j :: 0 <= j < 6 ==> cs[13 + j] == BlockBody(k)[j]
    ensures PinsFit(cs, i)
  {
    hide MoveOps;
    assert forall op <- MoveOps(k) :: op.Just? by { SameSteps(); }
    assert cs[i] == cs[13 + (i - 13)] == BlockBody(k)[i - 13];
  }

  lemma BlockPinsOK(k: MoveKind)
    ensures PinsOK(BlockCode(k))
  {
    hide EndOps, MoveOps, BlockBody, BlockSetup, BlockFinish, PinsFit;
    var cs := BlockCode(k);
    BodyCount(k);
    SetupPlain(12);
    FinishPlain(0);
    FinishIs(k);
    BodyIs(k);
    forall i | 0 <= i < |cs|
      ensures PinsFit(cs, i)
    {
      if i < 13 {
        SetupPlain(i);
        assert cs[i] == BlockSetup()[i];
        PlainFits(cs, i);
      } else if i < 19 {
        BodyFits(k, cs, i);
      } else if i < 22 {
        FinishPlain(i - 19);
        assert cs[i] == BlockFinish()[i - 19];
        PlainFits(cs, i);
      } else {
        EndingFits(cs, i, [Take(RY)], true, true);
      }
    }
  }

  lemma ShellEnded(c: Core, e: Core)
    requires SameShell(c, e)
    ensures SameShell(Ended(c), Ended(e)) && Ended(c).addr == Ended(e).addr && Ended(c).r.tr == c.r.tr &&
      Ended(c).d == c.d
  {
    hide Phys;
  }

  /** A block move up to its last case, and that one. */
  lemma BlockRuns(k: MoveKind, s: Cpu) returns (v: Cpu, t: Cpu)
    requires Ready(s)
    ensures Within(BlockCode(k), s, 16 + 6 * Length(s), v) && RefTick(BlockCode(k), v) == t
    ensures t.tcu == 0 && t.rd && !t.wr
    ensures t.mem == Copy(k, s.core.r.mpr, FirstByte(s), Length(s)).mem
    ensures var e := Ended(Finished(s, t.mem));
      SameShell(t.core, e) && t.core.addr == e.addr && Fits(Byte, t.core.d) && forall i :: 0 <= i < 8 ==>
        Fits(Full, t.core.r.tr[i])
  {
    hide BlockCode, Within, RefTick, FirstByte, Length, Copy, Fetch, Compile, Completes, Micros, LoopCore, Finished,
      Ended;
    var cs, n := BlockCode(k), Length(s);
    FinishIs(k);
    var u := Setup(k, s);
    LoopBytes(s);
    u := LoopAll(k, s, 13, u, LoopCore(s), FirstByte(s), n % 65536);
    var x := Copy(k, s.core.r.mpr, FirstByte(s), n);
    v := Pulls(k, s, 13 + 6 * n, u, x);
    PullMicros(Latched(v));
    EndTick(cs, v, [Take(RY)], true, true);
    t := RefTick(cs, v);
    var c := Micros([Take(RY)], Latched(v));
    EndedIs(c);
    ShellEnded(c, Finished(s, x.mem));
  }

  /**
   A block move, as emitted, takes 17 + 6n cycles and leaves the memory of the byte-at-a-time copy
   of n bytes that starts once Y, A and X are pushed. A, X and Y end as their stack bytes then
   stand, S as it was, and the next opcode is on order.
   */
  lemma BlockExec(k: MoveKind, s: Cpu) returns (t: Cpu)
    requires Ready(s)
    ensures Completes(Compile(BlockCode(k)), s, 17 + 6 * Length(s), t)
    ensures t.tcu == 0 && t.rd && !t.wr
    ensures t.mem == Copy(k, s.core.r.mpr, FirstByte(s), Length(s)).mem
    ensures var e := Ended(Finished(s, t.mem));
      SameShell(t.core, e) && t.core.addr == e.addr && Fits(Byte, t.core.d) && forall i :: 0 <= i < 8 ==>
        Fits(Full, t.core.r.tr[i])
  {
    hide BlockCode, Within, RefTick, FirstByte, Length, Copy, Compile, PinsOK, Completes, Finished, Ended;
    BlockPinsOK(k);
    FinishIs(k);
    var v: Cpu;
    v, t := BlockRuns(k, s);
    Completed(BlockCode(k), s, 16 + 6 * Length(s), v, t);
  }

  lemma LoopBytes(s: Cpu)
    requires Ready(s)
    ensures 0 < Length(s) <= 65536 && Bytes(Length(s) % 65536) == Length(s) && LoopCore(s).r.mpr == s.core.r.mpr
  {
    hide WordAt;
  }
}
