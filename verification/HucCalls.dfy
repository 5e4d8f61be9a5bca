/** Subroutine calls and returns. */
module HucCalls {
  import opened BitOps
  import opened HucMachine
  import opened HucMicrocode
  import opened HucCertify
  import opened HucSwitchgen
  import opened HucText
  import opened HucExec
  import opened HucOperands
  import opened HucTMode
  import opened HucBlockMove
  import opened HucCopies

  /** `c` is `e` with other scratch: D, Addr, TA and the TR registers. */
  predicate Kept(c: Core, e: Core) {
    c == e.(d := c.d, addr := c.addr, r := e.r.(ta := c.r.ta, tr := c.r.tr))
  }

  lemma KeptEnded(c: Core, e: Core)
    requires Kept(c, e)
    ensures Kept(Ended(c), Ended(e)) && Ended(c).addr == Ended(e).addr && Ended(c).r.tr == c.r.tr &&
      Ended(c).r.ta == c.r.ta
  {
    hide Phys;
  }

  /** Scratch registers hold 32-bit values. */
  predicate ScratchFits(c: Core) {
    Fits(Full, c.r.ta) && Fits(Full, c.d) && forall i :: 0 <= i < 8 ==> Fits(Full, c.r.tr[i])
  }

  /** An instruction has ended: `t` is the end of `e` in memory `mem`. */
  predicate EndsAs(t: Cpu, e: Core, mem: map<int, byte>) {
    && t == Cpu(t.core, 0, true, false, mem) && ScratchFits(t.core)
    && Kept(t.core, Ended(e)) && t.core.addr == Ended(e).addr
  }

  // ----- JSR -----

  function CallMem(s: Cpu): map<int, byte> {
    var r := s.core.r;
    s.mem[Slot1(r) := AsByte(Inc16(r.pc) / 256)][Slot2(r) := AsByte(Inc16(r.pc) % 256)]
  }

  /** Low byte read before the pushes, high byte after them. */
  function CallTarget(s: Cpu): int
    requires Word16(s.core.r.pc)
  {
    var r := s.core.r;
    Word(Read(s.mem, Phys(r.mpr, r.pc)), Read(CallMem(s), Phys(r.mpr, Inc16(r.pc))))
  }

  function CallCore(s: Cpu): Core
    requires Word16(s.core.r.pc)
  {
    s.core.(r := s.core.r.(pc := CallTarget(s), sp := Dec8(Dec8(s.core.r.sp))))
  }

  lemma CallPinsOK()
    ensures PinsOK(CallCode())
  {
    hide EndOps;
    var cs := CallCode();
    forall k | 0 <= k < |cs|
      ensures PinsFit(cs, k)
    {
      if k == 6 {
        EndingFits(cs, k, [], true, true);
      }
    }
  }

  /** One push in the middle of an instruction. */
  lemma PushMore(cs: seq<Cycle>, s: Cpu, n: nat, u: Cpu, e: Core, v: Src, b: byte) returns (w: Cpu)
    requires 0 < u.tcu && u.tcu + 1 < |cs| && Within(cs, s, n, u) && Kept(u.core, e)
    requires cs[u.tcu] == C(PushOps(v), WRITE) && Eval(Latched(u).(addr := StackAddr(e.r.mpr, e.r.sp)), v) == b
    ensures Within(cs, s, n + 1, w)
    ensures w == Cpu(w.core, u.tcu + 1, false, true, u.mem[StackAddr(e.r.mpr, e.r.sp) := b])
    ensures Kept(w.core, Below(e)) && w.core.r.tr == u.core.r.tr && w.core.r.ta == u.core.r.ta && w.core.d == b
  {
    hide StackAddr, RefTick, Within, Eval;
    PushTick(cs, u, v);
    WithinMore(cs, s, n, u);
    w := RefTick(cs, u);
  }

  /** Cases 1 and 2: the byte at PC into TA. */
  lemma TakeTA(cs: seq<Cycle>, s: Cpu, more: seq<Op>, c: Core) returns (u: Cpu)
    requires |cs| > 2 && cs[0] == C([ADDR_PC], READ) && cs[1] == C([Take(RTA), INC_PC] + more, IDLE)
    requires Ready(s) && (forall op <- more :: op.Just?)
    requires var b := Read(s.mem, Phys(s.core.r.mpr, s.core.r.pc));
      c == Micros(more, s.core.(d := b, addr := Phys(s.core.r.mpr, s.core.r.pc),
        r := s.core.r.(ta := b, pc := Inc16(s.core.r.pc))))
    ensures Within(cs, s, 2, u) && u == Cpu(c, 2, false, false, s.mem)
  {
    hide Do, Phys, Micros, RefTick;
    WithinNone(cs, s);
    MicrosNone(Latched(s));
    assert [] + [ADDR_PC] == [ADDR_PC];
    AskPcTick(cs, s, [], Latched(s));
    WithinMore(cs, s, 0, s);
    var t1 := RefTick(cs, s);
    TakeNextMicros(Latched(t1), RTA);
    MicrosAppend([Take(RTA), INC_PC], more, Latched(t1));
    StraightTick(cs, t1, [Take(RTA), INC_PC] + more, IDLE, c);
    WithinMore(cs, s, 1, t1);
    u := RefTick(cs, t1);
  }

  lemma JumpMicros(l: Core)
    requires Fits(Byte, l.d) && Fits(Byte, l.r.ta)
    ensures var w := Word(l.r.ta, l.d);
      Micros([Take(RTR(0)), INC_PC, JOIN_TA, Just(Move(RPC, Reg(RTA)))], l)
      == l.(r := l.r.(pc := w, ta := w, tr := l.r.tr[0 := l.d]))
  {
    hide Do, Word, Micros;
    TakeNextMicros(l, RTR(0));
    var c := TakeNext(l, RTR(0));
    assert [Take(RTR(0)), INC_PC] + [JOIN_TA, Just(Move(RPC, Reg(RTA)))] ==
      [Take(RTR(0)), INC_PC, JOIN_TA, Just(Move(RPC, Reg(RTA)))];
    MicrosAppend([Take(RTR(0)), INC_PC], [JOIN_TA, Just(Move(RPC, Reg(RTA)))], l);
    Micros2(JOIN_TA.m, Move(RPC, Reg(RTA)), c);
    JoinDo(c);
    WordIs(l.r.ta, l.d);
    MovePC(c.(r := c.r.(ta := Word(l.r.ta, l.d))));
  }

  lemma MovePC(c: Core)
    requires Word16(c.r.ta)
    ensures Do(Move(RPC, Reg(RTA)), c) == c.(r := c.r.(pc := c.r.ta))
  {
  }

  /** The core once the low operand byte is in TA. */
  function LowTaken(s: Cpu): Core
    requires Word16(s.core.r.pc)
  {
    var b := Read(s.mem, Phys(s.core.r.mpr, s.core.r.pc));
    s.core.(d := b, addr := Phys(s.core.r.mpr, s.core.r.pc), r := s.core.r.(ta := b, pc := Inc16(s.core.r.pc)))
  }

  lemma HalvesOfPC(c: Core)
    requires Word16(c.r.pc)
    ensures Eval(c, Hi(RPC)) == AsByte(c.r.pc / 256) && Eval(c, Lo(RPC)) == AsByte(c.r.pc % 256)
  {
  }

  /** JSR up to its pushes. */
  lemma CallPushes(s: Cpu) returns (u: Cpu)
    requires Ready(s)
    ensures Within(CallCode(), s, 4, u) && u == Cpu(u.core, 4, false, true, CallMem(s))
    ensures Kept(u.core, Below(Below(LowTaken(s)))) && u.core.r.tr == s.core.r.tr && u.core.r.ta == LowTaken(s).r.ta
  {
    hide Phys, StackAddr, Micros, RefTick, Within, EndOps, Eval, Inc16;
    var cs, c := CallCode(), LowTaken(s);
    MicrosNone(c);
    assert [Take(RTA), INC_PC] + [] == [Take(RTA), INC_PC];
    Twice(s.core.r.pc);
    u := TakeTA(cs, s, [], c);
    HalvesOfPC(Latched(u).(addr := StackAddr(c.r.mpr, c.r.sp)));
    u := PushMore(cs, s, 2, u, c, Hi(RPC), AsByte(c.r.pc / 256));
    HalvesOfPC(Latched(u).(addr := StackAddr(c.r.mpr, Below(c).r.sp)));
    u := PushMore(cs, s, 3, u, Below(c), Lo(RPC), AsByte(c.r.pc % 256));
  }

  /** JSR up to its last case. */
  lemma CallBody(s: Cpu) returns (u: Cpu)
    requires Ready(s)
    ensures Within(CallCode(), s, 6, u) && u == Cpu(u.core, 6, false, false, CallMem(s))
    ensures Kept(u.core, CallCore(s)) && ScratchFits(u.core)
  {
    hide Phys, StackAddr, Micros, RefTick, Within, EndOps, Word, CallMem, Inc16;
    var cs, r := CallCode(), s.core.r;
    Twice(r.pc);
    u := CallPushes(s);
    MicrosNone(u.core);
    assert [] + [ADDR_PC] == [ADDR_PC];
    AskPcTick(cs, u, [], u.core);
    WithinMore(cs, s, 4, u);
    var t := RefTick(cs, u);
    JumpMicros(Latched(t));
    var ops := [Take(RTR(0)), INC_PC, JOIN_TA, Just(Move(RPC, Reg(RTA)))];
    StraightTick(cs, t, ops, IDLE, Micros(ops, Latched(t)));
    WithinMore(cs, s, 5, t);
    u := RefTick(cs, t);
    WordIs(Latched(t).r.ta, Latched(t).d);
  }

  /** JSR as emitted: seven cycles, PC + 1 pushed, on to the target. */
  lemma CallExec(s: Cpu) returns (t: Cpu)
    requires Ready(s)
    ensures Completes(Compile(CallCode()), s, 7, t) && EndsAs(t, CallCore(s), CallMem(s))
  {
    hide CallCore, CallMem, Within, RefTick, Fetch, Compile, PinsOK, Completes, EndOps, Ended;
    CallPinsOK();
    var u := CallBody(s);
    EndTick(CallCode(), u, [], true, true);
    MicrosNone(Latched(u));
    t := RefTick(CallCode(), u);
    Completed(CallCode(), s, 6, u, t);
    EndedIs(Latched(u));
    KeptEnded(Latched(u), CallCore(s));
    EndedScratch(Latched(u));
  }

  lemma EndedScratch(c: Core)
    requires ScratchFits(c)
    ensures ScratchFits(Ended(c))
  {
    hide Phys;
  }

  // ----- RTS -----

  function Pulled(s: Cpu): Core {
    var r := s.core.r;
    var sp1, sp2 := Inc8(r.sp), Inc8(Inc8(r.sp));
    s.core.(r := r.(sp := sp2, pc := Inc16(Word(Read(s.mem, StackAddr(r.mpr, sp1)),
      Read(s.mem, StackAddr(r.mpr, sp2))))))
  }

  lemma ReturnPinsOK()
    ensures PinsOK(ReturnCode())
  {
    hide EndOps;
    var cs := ReturnCode();
    forall k | 0 <= k < |cs|
      ensures PinsFit(cs, k)
    {
      if k == 6 {
        EndingFits(cs, k, [], true, true);
      }
    }
  }

  /** A pull in the middle of an instruction. */
  lemma PullMore(cs: seq<Cycle>, s: Cpu, n: nat, u: Cpu, pre: seq<Op>, c: Core) returns (w: Cpu)
    requires 0 < u.tcu && u.tcu + 1 < |cs| && Within(cs, s, n, u) && cs[u.tcu] == C(pre + PULL_OPS, READ)
    requires (forall op <- pre :: op.Just?) && Micros(pre, Latched(u)) == c
    ensures var sp := Inc8(c.r.sp);
      w == Asked(c.(addr := StackAddr(c.r.mpr, sp), r := c.r.(sp := sp)), u.tcu + 1, u.mem)
    ensures Within(cs, s, n + 1, w)
  {
    hide StackAddr, RefTick, Within, Micros;
    PullTick(cs, u, pre, c);
    WithinMore(cs, s, n, u);
    w := RefTick(cs, u);
  }

  lemma TakeMicros(l: Core)
    requires Fits(Byte, l.d)
    ensures Micros([Take(RPC)], l) == l.(r := l.r.(pc := l.d))
    ensures Fits(Byte, l.r.pc) ==> Micros([Take(RTA), JOIN_PC], l) == l.(r := l.r.(ta := l.d, pc := Word(l.r.pc, l.d)))
    ensures Micros([INC_PC], l) == l.(r := l.r.(pc := Inc16(l.r.pc)))
  {
    hide Do, Word;
    TakeDo(l, RPC);
    TakeDo(l, RTA);
    Micros1(Take(RPC).m, l);
    Micros1(INC_PC.m, l);
    IncPcDo(l);
    Micros2(Take(RTA).m, JOIN_PC.m, l);
    JoinPcDo(l.(r := l.r.(ta := l.d)));
  }

  lemma JoinPcDo(c: Core)
    ensures Do(JOIN_PC.m, c) == c.(r := c.r.(pc := Word(c.r.pc, c.r.ta)))
  {
    hide Word;
  }

  /** A dummy read, an idle cycle and a first pull, as RTS and RTI begin. */
  lemma FirstPull(cs: seq<Cycle>, s: Cpu) returns (u: Cpu)
    requires |cs| > 3 && cs[0] == C([ADDR_PC], READ) && cs[1] == C([], IDLE) && cs[2] == C(PULL_OPS, READ)
    requires Ready(s)
    ensures Within(cs, s, 3, u) && u == Asked(u.core, 3, s.mem) && u.core.r.tr == s.core.r.tr
    ensures Kept(u.core, s.core.(r := s.core.r.(sp := Inc8(s.core.r.sp)))) &&
      u.core.addr == StackAddr(s.core.r.mpr, Inc8(s.core.r.sp))
  {
    hide Phys, StackAddr, RefTick, Micros, Within;
    WithinNone(cs, s);
    MicrosNone(Latched(s));
    assert [] + [ADDR_PC] == [ADDR_PC] && [] + PULL_OPS == PULL_OPS;
    AskPcTick(cs, s, [], Latched(s));
    WithinMore(cs, s, 0, s);
    u := RefTick(cs, s);
    IdleTick(cs, u);
    WithinMore(cs, s, 1, u);
    u := RefTick(cs, u);
    MicrosNone(u.core);
    u := PullMore(cs, s, 2, u, [], u.core);
  }

  /** RTS up to its last case. */
  lemma ReturnBody(s: Cpu) returns (u: Cpu)
    requires Ready(s)
    ensures Within(ReturnCode(), s, 6, u) && u == Cpu(u.core, 6, false, false, s.mem)
    ensures Kept(u.core, Pulled(s)) && ScratchFits(u.core)
  {
    hide Phys, StackAddr, RefTick, Micros, Within, EndOps, Word, Inc16;
    var cs := ReturnCode();
    u := FirstPull(cs, s);
    TakeMicros(Latched(u));
    u := PullMore(cs, s, 3, u, [Take(RPC)], Micros([Take(RPC)], Latched(u)));
    TakeMicros(Latched(u));
    WordIs(u.core.r.pc, Latched(u).d);
    StraightTick(cs, u, [Take(RTA), JOIN_PC], IDLE, Micros([Take(RTA), JOIN_PC], Latched(u)));
    WithinMore(cs, s, 4, u);
    u := RefTick(cs, u);
    TakeMicros(u.core);
    StraightTick(cs, u, [INC_PC], IDLE, Micros([INC_PC], u.core));
    WithinMore(cs, s, 5, u);
    u := RefTick(cs, u);
  }

  /** RTS as emitted: seven cycles, on to the byte after the pulled address. */
  lemma ReturnExec(s: Cpu) returns (t: Cpu)
    requires Ready(s)
    ensures Completes(Compile(ReturnCode()), s, 7, t) && EndsAs(t, Pulled(s), s.mem)
  {
    hide Pulled, Within, RefTick, Fetch, Compile, PinsOK, Completes, EndOps, Ended;
    ReturnPinsOK();
    var u := ReturnBody(s);
    EndTick(ReturnCode(), u, [], true, true);
    MicrosNone(Latched(u));
    t := RefTick(ReturnCode(), u);
    Completed(ReturnCode(), s, 6, u, t);
    EndedIs(Latched(u));
    KeptEnded(Latched(u), Pulled(s));
    EndedScratch(Latched(u));
  }

  // ----- BSR -----

  function BranchMem(s: Cpu): map<int, byte> {
    var r := s.core.r;
    s.mem[Slot1(r) := AsByte(r.pc / 256)][Slot2(r) := AsByte(r.pc % 256)]
  }

  /** The target as an integer: not reduced to 16 bits by the code. */
  function BranchTarget(s: Cpu): int
    requires Word16(s.core.r.pc)
  {
    Inc16(s.core.r.pc) + SignExtend(Read(s.mem, Phys(s.core.r.mpr, s.core.r.pc)))
  }

  function BranchCore(s: Cpu): Core
    requires Word16(s.core.r.pc)
  {
    s.core.(r := s.core.r.(pc := BranchTarget(s) % 0x1_0000_0000, sp := Dec8(Dec8(s.core.r.sp))))
  }

  lemma BranchPinsOK()
    ensures PinsOK(BranchSubroutineCode())
  {
    hide EndOps;
    var cs := BranchSubroutineCode();
    forall k | 0 <= k < |cs|
      ensures PinsFit(cs, k)
    {
      if k == 7 {
        EndingFits(cs, k, [], true, true);
      }
    }
  }

  lemma OffsetMicros(c: Core)
    ensures Micros([Just(Move(RTA, Signed(RTA)))], c) == c.(r := c.r.(ta := SignExtend(c.r.ta) % 0x1_0000_0000))
  {
    hide Do, SignExtend;
    Micros1(Move(RTA, Signed(RTA)), c);
    MoveTA(c);
  }

  lemma MoveTA(c: Core)
    ensures Do(Move(RTA, Signed(RTA)), c) == c.(r := c.r.(ta := SignExtend(c.r.ta) % 0x1_0000_0000))
  {
    hide SignExtend;
  }

  lemma BranchDo(c: Core)
    ensures Do(Sum(RTR(0), Reg(RPC), Num(-1), W16), c) == c.(r := c.r.(tr := c.r.tr[0 := Dec16(c.r.pc)]))
    ensures Do(Sum(RPC, Reg(RPC), Reg(RTA), W32), c) == c.(r := c.r.(pc := (c.r.pc + c.r.ta) % 0x1_0000_0000))
  {
  }

  lemma PushDo(c: Core, v: Src)
    ensures Micros(PushOps(v), c)
         == (var e := c.(addr := StackAddr(c.r.mpr, c.r.sp)); e.(d := Eval(e, v), r := c.r.(sp := Dec8(c.r.sp))))
  {
    hide Do, Eval, StackAddr;
    PushDos(c, v);
    PushDos(c.(addr := StackAddr(c.r.mpr, c.r.sp)), v);
    PushDos(c.(addr := StackAddr(c.r.mpr, c.r.sp), d := Eval(c.(addr := StackAddr(c.r.mpr, c.r.sp)), v)), v);
    Micros3(AddrStack, Out(v), DEC_S.m, c);
  }

  lemma PushDos(c: Core, v: Src)
    ensures Do(AddrStack, c) == c.(addr := StackAddr(c.r.mpr, c.r.sp)) && Do(Out(v), c) == c.(d := Eval(c, v))
    ensures Do(DEC_S.m, c) == c.(r := c.r.(sp := Dec8(c.r.sp)))
  {
    hide StackAddr;
  }

  /** A statement, then a push. */
  lemma PushAfter(cs: seq<Cycle>, s: Cpu, n: nat, u: Cpu, m: Micro, v: Src, b: byte) returns (w: Cpu)
    requires 0 < u.tcu && u.tcu + 1 < |cs| && Within(cs, s, n, u)
    requires cs[u.tcu] == C([Just(m)] + PushOps(v), WRITE)
    requires var e := Do(m, Latched(u)); Eval(e.(addr := StackAddr(e.r.mpr, e.r.sp)), v) == b
    ensures var e := Do(m, Latched(u)); var a := StackAddr(e.r.mpr, e.r.sp);
      w == Cpu(e.(addr := a, d := b, r := e.r.(sp := Dec8(e.r.sp))), u.tcu + 1, false, true, u.mem[a := b])
    ensures Within(cs, s, n + 1, w)
  {
    hide StackAddr, RefTick, Within, Eval, Do, Micros;
    var ops := [Just(m)] + PushOps(v);
    Micros1(m, Latched(u));
    MicrosAppend([Just(m)], PushOps(v), Latched(u));
    PushDo(Do(m, Latched(u)), v);
    StraightTick(cs, u, ops, WRITE, Micros(ops, Latched(u)));
    WithinMore(cs, s, n, u);
    w := RefTick(cs, u);
  }

  lemma HalvesOfTR0(c: Core)
    requires Word16(c.r.tr[0])
    ensures Eval(c, Hi(RTR(0))) == AsByte(c.r.tr[0] / 256) && Eval(c, Lo(RTR(0))) == AsByte(c.r.tr[0] % 256)
  {
  }

  lemma Wraps(pc: int, b: byte)
    requires Word16(pc)
    ensures (pc + SignExtend(b) % 0x1_0000_0000) % 0x1_0000_0000 == (pc + SignExtend(b)) % 0x1_0000_0000
    ensures Fits(Full, SignExtend(b) % 0x1_0000_0000) && Dec16(Inc16(pc)) == pc
  {
  }

  /** BSR up to its pushes. */
  lemma BranchPushes(s: Cpu) returns (u: Cpu)
    requires Ready(s)
    ensures Within(BranchSubroutineCode(), s, 4, u) && u == Cpu(u.core, 4, false, true, BranchMem(s))
    ensures Kept(u.core, BranchCore(s)) && ScratchFits(u.core)
  {
    hide Phys, StackAddr, Micros, RefTick, Within, EndOps, Eval, Inc16, Dec16, SignExtend, Do;
    var cs, r, e := BranchSubroutineCode(), s.core.r, LowTaken(s);
    Twice(r.pc);
    Wraps(r.pc, e.d);
    WrapsNext(r.pc, e.d);
    OffsetMicros(e);
    assert [Take(RTA), INC_PC] + [Just(Move(RTA, Signed(RTA)))] == [Take(RTA), INC_PC, Just(Move(RTA, Signed(RTA)))];
    u := TakeTA(cs, s, [Just(Move(RTA, Signed(RTA)))], e.(r := e.r.(ta := SignExtend(e.r.ta) % 0x1_0000_0000)));
    var m1, m2 := Sum(RTR(0), Reg(RPC), Num(-1), W16), Sum(RPC, Reg(RPC), Reg(RTA), W32);
    BranchDo(Latched(u));
    var e1 := Do(m1, Latched(u));
    HalvesOfTR0(e1.(addr := StackAddr(e1.r.mpr, e1.r.sp)));
    u := PushAfter(cs, s, 2, u, m1, Hi(RTR(0)), AsByte(r.pc / 256));
    BranchDo(Latched(u));
    var e2 := Do(m2, Latched(u));
    HalvesOfTR0(e2.(addr := StackAddr(e2.r.mpr, e2.r.sp)));
    u := PushAfter(cs, s, 3, u, m2, Lo(RTR(0)), AsByte(r.pc % 256));
  }

  lemma WrapsNext(pc: int, b: byte)
    requires Word16(pc)
    ensures (Inc16(pc) + SignExtend(b) % 0x1_0000_0000) % 0x1_0000_0000 == (Inc16(pc) + SignExtend(b)) % 0x1_0000_0000
  {
    Wraps(Inc16(pc), b);
  }

  /** BSR as emitted: eight cycles, PC pushed, PC plus the offset not reduced. */
  lemma BranchExec(s: Cpu) returns (t: Cpu)
    requires Ready(s)
    ensures Completes(Compile(BranchSubroutineCode()), s, 8, t) && EndsAs(t, BranchCore(s), BranchMem(s))
  {
    hide BranchCore, BranchMem, Within, RefTick, Fetch, Compile, PinsOK, Completes, EndOps, Ended;
    BranchPinsOK();
    var cs := BranchSubroutineCode();
    var u := BranchPushes(s);
    IdleTick(cs, u);
    WithinMore(cs, s, 4, u);
    u := RefTick(cs, u);
    IdleTick(cs, u);
    WithinMore(cs, s, 5, u);
    u := RefTick(cs, u);
    IdleTick(cs, u);
    WithinMore(cs, s, 6, u);
    u := RefTick(cs, u);
    EndTick(cs, u, [], true, true);
    MicrosNone(Latched(u));
    t := RefTick(cs, u);
    Completed(cs, s, 7, u, t);
    EndedIs(Latched(u));
    KeptEnded(Latched(u), BranchCore(s));
    EndedScratch(Latched(u));
  }

  /**
   BSR goes where it should exactly when its target is a 16-bit address; otherwise the fetch indexes
   MPR beyond its end.
   */
  lemma BranchFaults(s: Cpu) returns (t: Cpu)
    requires Ready(s) && !s.core.fault
    ensures Completes(Compile(BranchSubroutineCode()), s, 8, t)
    ensures t.core.fault <==> !Word16(BranchTarget(s))
    ensures !t.core.fault ==> Boundary(t) && t.core.r.pc == Inc16(BranchTarget(s))
  {
    hide Compile, Completes, BranchMem, Phys;
    t := BranchExec(s);
    EndedFetches(BranchCore(s));
    TargetRange(s);
  }

  lemma TargetRange(s: Cpu)
    requires Ready(s)
    ensures -128 <= BranchTarget(s) < 65536 + 128
  {
    hide Phys;
  }

  lemma EndedFetches(c: Core)
    ensures var e := Ended(c);
      && e.fault == (c.fault || !Word16(c.r.pc)) && e.r.pc == Inc16(c.r.pc) && e.r.mpr == c.r.mpr && e.r.sp == c.r.sp
      && (Word16(c.r.pc) ==> e.addr == Phys(c.r.mpr, c.r.pc) && Dec16(e.r.pc) == c.r.pc)
  {
    hide Phys;
  }

  // ----- Calls nested to any depth the stack page can hold -----

  /**
   What runs between two points of the same stack depth: other code, of which only the state it
   leaves is known, and calls by JSR or, if `branch`, BSR.
   */
  datatype Work = Done | Other(t: Cpu, rest: Work) | Call(branch: bool, body: Work, rest: Work)

  function CallSeq(branch: bool): seq<Cycle> {
    if branch then BranchSubroutineCode() else CallCode()
  }

  function CallCycles(branch: bool): nat {
    if branch then 8 else 7
  }

  function Entered(branch: bool, s: Cpu): Cpu {
    Ticks(Compile(CallSeq(branch)), s, CallCycles(branch))
  }

  function Left(s: Cpu): Cpu {
    Ticks(Compile(ReturnCode()), s, 7)
  }

  /** The state reached when `w` runs from `s`, each call being followed by the RTS of its body. */
  function After(w: Work, s: Cpu): Cpu {
    match w
    case Done => s
    case Other(t, rest) => After(rest, t)
    case Call(branch, body, rest) => After(rest, Left(After(body, Entered(branch, s))))
  }

  function Depth(w: Work): nat {
    match w
    case Done => 0
    case Other(_, rest) => Depth(rest)
    case Call(_, body, rest) => if Depth(body) + 1 > Depth(rest) then Depth(body) + 1 else Depth(rest)
  }

  /** Byte j above the stack pointer. */
  function LiveAddr(r: Regs, j: nat): int {
    StackAddr(r.mpr, (r.sp + 1 + j) % 256)
  }

  /** The stack is as deep as it was, and the lowest `live` bytes on it are the same. */
  ghost predicate Balanced(s: Cpu, t: Cpu, live: nat) {
    && t.core.r.sp == s.core.r.sp && t.core.r.mpr[1] == s.core.r.mpr[1]
    && forall j: nat :: j < live ==> Read(t.mem, LiveAddr(s.core.r, j)) == Read(s.mem, LiveAddr(s.core.r, j))
  }

  /** The other code balances the stack and leaves alone the return addresses of calls still open. */
  ghost predicate Fair(w: Work, s: Cpu, live: nat)
    requires Word16(s.core.r.pc)
  {
    match w
    case Done => true
    case Other(t, rest) => Ready(t) && Balanced(s, t, live) && Fair(rest, t, live)
    case Call(branch, body, rest) =>
      var s1 := Entered(branch, s);
      && (branch ==> Word16(BranchTarget(s)))
      && Word16(s1.core.r.pc) && Fair(body, s1, live + 2)
      && var s3 := Left(After(body, s1));
      && Word16(s3.core.r.pc) && Fair(rest, s3, live)
  }

  /** The address of the byte after the call instruction whose opcode was fetched at `s`. */
  function AfterCall(branch: bool, s: Cpu): int {
    Plus16(s.core.r.pc, if branch then 1 else 2)
  }

  /** A call at `s` entered its body at s1, and the RTS at s2 came back to the byte after it. */
  ghost predicate Resumes(branch: bool, s: Cpu, s1: Cpu, s2: Cpu, s3: Cpu) {
    && Completes(Compile(CallSeq(branch)), s, CallCycles(branch), s1)
    && Completes(Compile(ReturnCode()), s2, 7, s3)
    && s3.core.r.pc == Inc16(AfterCall(branch, s)) && s3.core.addr == Phys(s3.core.r.mpr, AfterCall(branch, s))
    && s3.core.r.sp == s.core.r.sp && Ready(s3)
  }

  ghost predicate AllReturn(w: Work, s: Cpu) {
    match w
    case Done => true
    case Other(t, rest) => AllReturn(rest, t)
    case Call(branch, body, rest) =>
      var s1 := Entered(branch, s);
      var s2 := After(body, s1);
      var s3 := Left(s2);
      Resumes(branch, s, s1, s2, s3) && AllReturn(body, s1) && AllReturn(rest, s3)
  }

  /** PC as it is pushed. */
  function PushedPC(branch: bool, s: Cpu): int {
    if branch then s.core.r.pc else Inc16(s.core.r.pc)
  }

  lemma EndsReady(s: Cpu, t: Cpu, e: Core, mem: map<int, byte>)
    requires Ready(s) && EndsAs(t, e, mem) && e.r == s.core.r.(pc := e.r.pc, sp := e.r.sp)
    requires Fits(Byte, e.r.sp) && Word16(e.r.pc)
    ensures Ready(t) && t.core.r.pc == Inc16(e.r.pc) && t.core.addr == Phys(e.r.mpr, e.r.pc) && t.core.r.sp == e.r.sp
    ensures t.core.r.mpr == s.core.r.mpr
  {
    hide Phys;
  }

  lemma ReadyFacts(s: Cpu)
    requires Ready(s)
    ensures Word16(s.core.r.pc) && Fits(Byte, s.core.r.sp)
  {
  }

  lemma Enters(branch: bool, s: Cpu) returns (s1: Cpu)
    requires Ready(s) && (branch ==> Word16(BranchTarget(s)))
    ensures s1 == Entered(branch, s) && Ready(s1) && Completes(Compile(CallSeq(branch)), s, CallCycles(branch), s1)
    ensures s1.core.r.sp == Dec8(Dec8(s.core.r.sp)) && s1.core.r.mpr == s.core.r.mpr
    ensures var w := PushedPC(branch, s);
      s1.mem == s.mem[Slot1(s.core.r) := AsByte(w / 256)][Slot2(s.core.r) := AsByte(w % 256)]
  {
    hide Phys, StackAddr, Compile, Word, SignExtend, Ended, Ready;
    ReadyFacts(s);
    if branch {
      s1 := BranchExec(s);
      EndsReady(s, s1, BranchCore(s), BranchMem(s));
    } else {
      s1 := CallExec(s);
      WordIs(Read(s.mem, Phys(s.core.r.mpr, s.core.r.pc)), Read(CallMem(s), Phys(s.core.r.mpr, Inc16(s.core.r.pc))));
      EndsReady(s, s1, CallCore(s), CallMem(s));
    }
  }

  lemma Leaves(s: Cpu) returns (t: Cpu)
    requires Ready(s)
    ensures t == Left(s) && Ready(t) && Completes(Compile(ReturnCode()), s, 7, t) && t.mem == s.mem
    ensures t.core.r.sp == Inc8(Inc8(s.core.r.sp)) && t.core.r.mpr == s.core.r.mpr
    ensures var pc := Inc16(Word(Read(s.mem, LiveAddr(s.core.r, 0)), Read(s.mem, LiveAddr(s.core.r, 1))));
      Word16(pc) && t.core.r.pc == Inc16(pc) && t.core.addr == Phys(t.core.r.mpr, pc)
  {
    hide Phys, StackAddr, Compile, Word, Ended, Ready, LiveAddr, Inc8, Inc16;
    ReadyFacts(s);
    t := ReturnExec(s);
    LiveFirst(s.core.r);
    WordIs(Read(s.mem, LiveAddr(s.core.r, 0)), Read(s.mem, LiveAddr(s.core.r, 1)));
    Twice(Word(Read(s.mem, LiveAddr(s.core.r, 0)), Read(s.mem, LiveAddr(s.core.r, 1))));
    EndsReady(s, t, Pulled(s), s.mem);
  }

  lemma LiveFirst(r: Regs)
    ensures LiveAddr(r, 0) == StackAddr(r.mpr, Inc8(r.sp)) && LiveAddr(r, 1) == StackAddr(r.mpr, Inc8(Inc8(r.sp)))
    ensures Fits(Byte, Inc8(Inc8(r.sp)))
  {
    hide StackAddr;
  }

  /** The bytes on the stack and the two slots a call takes are all different. */
  lemma LiveApart(r: Regs, j: nat)
    requires SaneRegs(AT_BOUNDARY, r) && j < 254
    ensures LiveAddr(r, j) != Slot1(r) && LiveAddr(r, j) != Slot2(r) && Slot1(r) != Slot2(r)
  {
    hide StackAddr;
    StackAddrIs(r.mpr, r.sp);
    StackAddrIs(r.mpr, Dec8(r.sp));
    StackAddrIs(r.mpr, (r.sp + 1 + j) % 256);
  }

  /** Two bytes further down, the same byte has an index two higher. */
  lemma LiveShift(r: Regs, q: Regs, j: nat)
    requires SaneRegs(AT_BOUNDARY, r) && q.sp == Dec8(Dec8(r.sp)) && q.mpr[1] == r.mpr[1]
    ensures LiveAddr(q, j + 2) == LiveAddr(r, j) && LiveAddr(q, 0) == Slot2(r) && LiveAddr(q, 1) == Slot1(r)
  {
    hide BitOr;
  }

  /** The return address is where RTS looks for it. */
  lemma AddressKept(s: Cpu, s1: Cpu, s2: Cpu, live: nat, w: int)
    requires Ready(s) && Word16(w) && s1.core.r.sp == Dec8(Dec8(s.core.r.sp)) && s1.core.r.mpr[1] == s.core.r.mpr[1]
    requires s1.mem == s.mem[Slot1(s.core.r) := AsByte(w / 256)][Slot2(s.core.r) := AsByte(w % 256)]
    requires Balanced(s1, s2, live + 2)
    ensures Word(Read(s2.mem, LiveAddr(s2.core.r, 0)), Read(s2.mem, LiveAddr(s2.core.r, 1))) == w
  {
    hide StackAddr, Word, LiveAddr, Slot1, Slot2;
    LiveShift(s.core.r, s1.core.r, 0);
    LiveApart(s.core.r, 0);
    SameLive(s1.core.r, s2.core.r, 0);
    SameLive(s1.core.r, s2.core.r, 1);
    assert Read(s2.mem, LiveAddr(s1.core.r, 0)) == Read(s1.mem, LiveAddr(s1.core.r, 0));
    assert Read(s2.mem, LiveAddr(s1.core.r, 1)) == Read(s1.mem, LiveAddr(s1.core.r, 1));
    WordIs(w % 256, w / 256);
  }

  /** What was on the stack below a call's return address is still there after it. */
  lemma LiveKept(s: Cpu, s1: Cpu, s2: Cpu, live: nat, hi: byte, lo: byte, j: nat)
    requires Ready(s) && s1.core.r.sp == Dec8(Dec8(s.core.r.sp)) && s1.core.r.mpr[1] == s.core.r.mpr[1]
    requires s1.mem == s.mem[Slot1(s.core.r) := hi][Slot2(s.core.r) := lo]
    requires Balanced(s1, s2, live + 2) && j < live <= 254
    ensures Read(s2.mem, LiveAddr(s.core.r, j)) == Read(s.mem, LiveAddr(s.core.r, j))
  {
    hide StackAddr, LiveAddr, Slot1, Slot2;
    LiveShift(s.core.r, s1.core.r, j);
    LiveApart(s.core.r, j);
    assert Read(s2.mem, LiveAddr(s1.core.r, j + 2)) == Read(s1.mem, LiveAddr(s1.core.r, j + 2));
  }

  /** A call whose body balances the stack comes back. */
  lemma CallReturns(branch: bool, s: Cpu, s2: Cpu, live: nat) returns (s1: Cpu, s3: Cpu)
    requires Ready(s) && (branch ==> Word16(BranchTarget(s))) && live + 2 <= 256
    requires Ready(s2) && Balanced(Entered(branch, s), s2, live + 2)
    ensures s1 == Entered(branch, s) && s3 == Left(s2) && Resumes(branch, s, s1, s2, s3) && Balanced(s, s3, live)
  {
    hide Phys, StackAddr, Compile, Completes, Word, Entered, Left, LiveAddr, Slot1, Slot2, BranchTarget, CallSeq,
      PushedPC, AfterCall, Read, AsByte, Inc16, Inc8, Dec8;
    s1 := Enters(branch, s);
    s3 := Leaves(s2);
    var w := PushedPC(branch, s);
    PushedIsWord(branch, s);
    AddressKept(s, s1, s2, live, w);
    StackPointers(s.core.r.sp);
    forall j: nat | j < live
      ensures Read(s3.mem, LiveAddr(s.core.r, j)) == Read(s.mem, LiveAddr(s.core.r, j))
    {
      LiveKept(s, s1, s2, live, AsByte(w / 256), AsByte(w % 256), j);
    }
  }

  lemma PushedIsWord(branch: bool, s: Cpu)
    requires Word16(s.core.r.pc)
    ensures Word16(PushedPC(branch, s)) && Inc16(PushedPC(branch, s)) == AfterCall(branch, s)
  {
  }

  lemma SameLive(r: Regs, q: Regs, j: nat)
    requires q.sp == r.sp && q.mpr[1] == r.mpr[1]
    ensures LiveAddr(q, j) == LiveAddr(r, j)
  {
    hide BitOr;
  }

  lemma BalancedTwice(s: Cpu, t: Cpu, u: Cpu, live: nat)
    requires Balanced(s, t, live) && Balanced(t, u, live)
    ensures Balanced(s, u, live)
  {
    hide LiveAddr;
    forall j: nat | j < live
      ensures Read(u.mem, LiveAddr(s.core.r, j)) == Read(s.mem, LiveAddr(s.core.r, j))
    {
      SameLive(s.core.r, t.core.r, j);
    }
  }

  /**
   Well-nested calls, JSR and BSR mixed, wherever S points and however it wraps: as long as the open
   calls' return addresses fit in the 256-byte page, each RTS resumes at the byte after its call.
   */
  lemma {:induction false} NestedCallsReturn(w: Work, s: Cpu, live: nat)
    requires Ready(s) && Fair(w, s, live) && live + 2 * Depth(w) <= 256
    ensures AllReturn(w, s) && Ready(After(w, s)) && Balanced(s, After(w, s), live)
    decreases w
  {
    hide Phys, Compile, Completes, Entered, Left, LiveAddr, Resumes, Ready, Balanced, BranchTarget;
    match w
    case Done => BalancedSelf(s, live);
    case Other(t, rest) =>
      NestedCallsReturn(rest, t, live);
      BalancedTwice(s, t, After(rest, t), live);
    case Call(branch, body, rest) =>
      var s1 := Enters(branch, s);
      NestedCallsReturn(body, s1, live + 2);
      var s2 := After(body, s1);
      var s1', s3 := CallReturns(branch, s, s2, live);
      ResumesReady(branch, s, s1, s2, s3);
      NestedCallsReturn(rest, s3, live);
      BalancedTwice(s, s3, After(rest, s3), live);
  }

  lemma ResumesReady(branch: bool, s: Cpu, s1: Cpu, s2: Cpu, s3: Cpu)
    requires Resumes(branch, s, s1, s2, s3)
    ensures Ready(s3) && Word16(s3.core.r.pc)
  {
  }

  lemma BalancedSelf(s: Cpu, live: nat)
    ensures Balanced(s, s, live)
  {
  }

  /** The pushes leave the operand's second byte as it was: it lies elsewhere, or has the value pushed. */
  predicate OperandSpared(s: Cpu) {
    var r, next := s.core.r, Inc16(s.core.r.pc);
    var a := Phys(r.mpr, next);
    if a == Slot2(r) then Read(s.mem, a) == next % 256
    else if a == Slot1(r) then Read(s.mem, a) == next / 256
    else true
  }

  /** JSR goes where its operand says if and only if its own pushes spare the operand's second byte. */
  lemma CallGoes(s: Cpu)
    requires Ready(s)
    ensures CallTarget(s) == WordAt(s.core.r.mpr, s.mem, s.core.r.pc) <==> OperandSpared(s)
  {
    hide Phys, StackAddr, Word, Slot1, Slot2;
    var r := s.core.r;
    SlotsApart(r);
    var lo, next := Read(s.mem, Phys(r.mpr, r.pc)), Phys(r.mpr, Inc16(r.pc));
    WordIs(lo, Read(CallMem(s), next));
    WordIs(lo, Read(s.mem, next));
  }

  /** A JSR whose operand straddles the top of the stack: it means 0x0200 and goes to 0x0100. */
  lemma CallStrays()
    ensures var s := At(0xFF, map[0x100 := 2]);
      Ready(s) && !OperandSpared(s) && WordAt(s.core.r.mpr, s.mem, s.core.r.pc) == 0x200 && CallTarget(s) == 0x100
  {
    hide BitOr;
    var s := At(0xFF, map[0x100 := 2]);
    OrWithNothing(0x100);
    OrWithNothing(0xFF);
    SlotsApart(s.core.r);
    assert Slot1(s.core.r) == 0x100;
    WordIs(0, 2);
    WordIs(0, 1);
  }

  /** A BSR back by 128 from address 2: PC wraps at 32 bits, and the fetch indexes MPR out of range. */
  lemma BranchStrays() returns (t: Cpu)
    ensures var s := At(1, map[1 := 0x80]);
      Ready(s) && BranchTarget(s) == -126 && Completes(Compile(BranchSubroutineCode()), s, 8, t) && t.core.fault
  {
    hide BitOr, Compile, Completes;
    OrWithNothing(1);
    t := BranchFaults(At(1, map[1 := 0x80]));
  }
}
