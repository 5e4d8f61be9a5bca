/** Branches and BRK against HucIsa. */
module HucRefineFlow {
  import opened Common
  import opened BitOps
  import opened HucMachine
  import opened HucMicrocode
  import opened HucCertify
  import opened HucSwitchgen
  import opened HucText
  import opened HucExec
  import opened HucOperands
  import opened HucTMode
  import opened HucBlockMove
  import opened HucCalls
  import opened HucInterrupts
  import opened HucStraight
  import opened HucIsa
  import opened HucRefineBasics

  // ----- Branches -----

  lemma DisplaceDo(c: Core)
    requires Fits(Byte, c.d)
    ensures Do(TAKE_BRANCH.m, c) == c.(r := c.r.(ta := Displaced(c.r.pc, c.d)))
  {
    hide SignExtend;
  }

  lemma BranchShape(f: FlagName, on: bool)
    ensures var cs := BranchCode(Some((f, on)));
      && Splits1(cs, 1, [Take(RTA), INC_PC], FlagIs(f, !on), [TAKE_BRANCH, ADDR_PC], [Just(Move(RPC, Reg(RTA)))])
      && |cs| == 4 && cs[0] == C([ADDR_PC], READ) && cs[2] == C([], IDLE) && cs[1].pins == READ
  {
    hide EndOps;
    assert [Take(RTA), INC_PC] + [BrEnd(FlagIs(f, !on))] + [TAKE_BRANCH, ADDR_PC]
        == [Take(RTA), INC_PC, BrEnd(FlagIs(f, !on)), TAKE_BRANCH, ADDR_PC];
  }

  /** Once a branch is taken: TA holds the target, and the last case moves it to PC. */
  lemma TakenMicros(x: Core, pre: seq<Op>, l: Core)
    requires (forall op <- pre :: op.Just?) && Micros(pre, l) == x && Fits(Byte, x.d) && Word16(x.r.pc)
    ensures var y := x.(r := x.r.(ta := Displaced(x.r.pc, x.d)));
      && Micros(pre + [TAKE_BRANCH], l) == y
      && Micros(pre + [TAKE_BRANCH, ADDR_PC], l) == y.(addr := Phys(y.r.mpr, y.r.pc))
  {
    hide Micros, Do, Phys;
    var y := x.(r := x.r.(ta := Displaced(x.r.pc, x.d)));
    MicrosAppend(pre, [TAKE_BRANCH], l);
    MicrosAppend(pre, [TAKE_BRANCH, ADDR_PC], l);
    DisplaceDo(x);
    Micros1(TAKE_BRANCH.m, x);
    Micros2(TAKE_BRANCH.m, ADDR_PC.m, x);
    AskPcDo(y);
  }

  lemma MoveTaken(c: Core)
    requires Word16(c.r.ta)
    ensures Micros([Just(Move(RPC, Reg(RTA)))], c) == c.(r := c.r.(pc := c.r.ta))
  {
    hide Micros, Do;
    Micros1(Move(RPC, Reg(RTA)), c);
    MovePC(c);
  }

  lemma BranchAlwaysExec(s: Cpu) returns (t: Cpu)
    requires Ready(s)
    ensures Refines(IBranch(None), s, t)
  {
    hide Micros, Do, EndOps, Plain, Fold, Refines, Phys, Displaced, Result;
    var cs, p := BranchCode(None), Peek(Latched(s), s.mem);
    assert Text(IBranch(None)) == cs && Proper(IBranch(None)) && PollsAtEnd(IBranch(None)) &&
      ClearsAtEnd(IBranch(None));
    hide Text, Proper, PollsAtEnd, ClearsAtEnd;
    FirstCyc(cs, s);
    PeekKept(s);
    TakenKept(s, RTA);
    var x := TakeNext(p, RTA);
    TakeNextMicros(p, RTA);
    TakenMicros(x, [Take(RTA), INC_PC], p);
    var y := x.(r := x.r.(ta := Displaced(x.r.pc, x.d)));
    assert [Take(RTA), INC_PC] + [TAKE_BRANCH] == [Take(RTA), INC_PC, TAKE_BRANCH];
    Onward(cs, 1, s, Held(p, s.mem), [Take(RTA), INC_PC, TAKE_BRANCH], IDLE, y);
    IdleCyc(cs, 2, s);
    DisplacedIs(x.r.pc, x.d);
    MoveTaken(y);
    var z := y.(r := y.r.(pc := y.r.ta));
    BranchResult(None, s, x, z);
    t := WorkEnd(IBranch(None), cs, s, y, [Just(Move(RPC, Reg(RTA)))], z);
  }

  lemma DisplacedIs(pc: int, offset: byte)
    ensures Word16(Displaced(pc, offset))
  {
    hide SignExtend;
  }

  lemma HoldsFlag(c: Core, f: FlagName, on: bool)
    ensures Holds(FlagIs(f, !on), c) <==> GetFlag(c.r.p, f) != on
  {
  }

  /** What a branch leaves when it is taken and when it is not. */
  lemma BranchResult(taken: Option<(FlagName, bool)>, s: Cpu, x: Core, z: Core)
    requires Ready(s) && Kept(x, Past1(s)) && Kept(z, AtPC(x, Displaced(Inc16(s.core.r.pc), First(s))))
    ensures var o := Result(IBranch(taken), s);
      && o.mem == s.mem
      && if taken.Some? && GetFlag(s.core.r.p, taken.value.0) != taken.value.1 then o.cycles == 2 && Kept(x, o.c)
         else o.cycles == 4 && Kept(z, o.c)
  {
    hide Displaced;
  }

  lemma KeptSelf(c: Core)
    ensures Kept(c, c)
  {
  }

  lemma KeptPC(c: Core, e: Core)
    requires Kept(c, e)
    ensures c.r.pc == e.r.pc
  {
  }

  /** The rest of the case once a branch is taken, and the end of the instruction. */
  lemma BranchThrough(c: Cycle, pre: seq<Op>, h: Held, x: Core) returns (z: Core, w: Core)
    requires (forall op <- pre :: op.Just?) && c.pins == READ && Micros(pre, h.c) == x && Fits(Byte, x.d) &&
      Word16(x.r.pc)
    ensures var t := Through(c, pre, [TAKE_BRANCH, ADDR_PC]); Plain(t) && Cyc(t, h) == Held(z, h.mem)
    ensures Micros([Just(Move(RPC, Reg(RTA)))], z) == w && Kept(w, AtPC(x, Displaced(x.r.pc, x.d)))
  {
    hide Micros, Do, Phys, Displaced;
    TakenMicros(x, pre, h.c);
    var y := x.(r := x.r.(ta := Displaced(x.r.pc, x.d)));
    z := y.(addr := Phys(y.r.mpr, y.r.pc), d := Read(h.mem, Phys(y.r.mpr, y.r.pc)));
    DisplacedIs(x.r.pc, x.d);
    MoveTaken(z);
    w := z.(r := z.r.(pc := z.r.ta));
  }

  lemma BranchExec(f: FlagName, on: bool, s: Cpu) returns (t: Cpu)
    requires Ready(s)
    ensures Refines(IBranch(Some((f, on))), s, t)
  {
    hide Micros, Do, EndOps, Plain, Fold, Refines, Phys, Displaced, Splits1, Compile, Completes, Fetch, BranchCode,
      Holds, Result, EndCore, Kept;
    var i, cs, p := IBranch(Some((f, on))), BranchCode(Some((f, on))), Peek(Latched(s), s.mem);
    assert Text(i) == cs && Proper(i) && PollsAtEnd(i) && ClearsAtEnd(i);
    hide Text, Proper, PollsAtEnd, ClearsAtEnd;
    BranchShape(f, on);
    FirstCyc(cs, s);
    PeekKept(s);
    TakenKept(s, RTA);
    TakeNextMicros(p, RTA);
    var pre, x := [Take(RTA), INC_PC], TakeNext(p, RTA);
    t := SplitExec(cs, s, 1, pre, FlagIs(f, !on), [TAKE_BRANCH, ADDR_PC], [Just(Move(RPC, Reg(RTA)))]);
    HoldsFlag(x, f, on);
    KeptSelf(AtPC(x, Displaced(x.r.pc, x.d)));
    BranchResult(Some((f, on)), s, x, AtPC(x, Displaced(x.r.pc, x.d)));
    if GetFlag(s.core.r.p, f) != on {
      BranchEndIsEnded(x);
      EndedIs(x);
      KeptEnds(i, s, t, x, 2);
    } else {
      var z, w := BranchThrough(cs[1], pre, Held(p, s.mem), x);
      OneIdle(cs[2..3], Held(z, s.mem));
      BranchResult(Some((f, on)), s, x, w);
      KeptEnds(i, s, t, w, 4);
    }
  }

  lemma OneIdle(cs: seq<Cycle>, h: Held)
    requires |cs| == 1 && cs[0] == C([], IDLE)
    ensures Plain(cs[0]) && Fold(cs, h) == h
  {
    FoldNone(h);
    assert cs[..0] == [];
    MicrosNone(h.c);
  }

  // ----- Branches on a bit -----

  lemma BitBranchShape(k: Slot, on: bool)
    ensures var cs := BitBranchCode(k, on);
      && Splits1(cs, 5, [], DataBit(k, !on), [Just(Sum(RPC, Reg(RPC), Signed(RTR(2)), W16))], [])
      && |cs| == 8 && cs[0] == C([ADDR_PC], READ) && cs[1] == C([Take(RTA), INC_PC], IDLE) &&
        cs[2] == C([ADDR_PC], READ)
      && cs[3] == C([Take(RTR(2)), INC_PC], IDLE) && cs[4] == C([ASK_TA], READ) && cs[6] == C([], IDLE) &&
        cs[5].pins == IDLE
  {
    hide EndOps;
  }

  /** The byte to test, and the offset in TR[2]. */
  lemma BitCyc(cs: seq<Cycle>, s: Cpu) returns (l: Core)
    requires Ready(s) && |cs| > 5 && cs[0] == C([ADDR_PC], READ) && cs[1] == C([Take(RTA), INC_PC], IDLE)
    requires cs[2] == C([ADDR_PC], READ) && cs[3] == C([Take(RTR(2)), INC_PC], IDLE) && cs[4] == C([ASK_TA], READ)
    ensures forall y <- cs[..5] :: Plain(y)
    ensures Fold(cs[..5], Hold(s)) == Held(l, s.mem) && Kept(l, Past2(s)) && l.r.tr[2] == Second(s)
    ensures l.d == Read(s.mem, ZeroPage(s.core.r.mpr, First(s)))
  {
    hide Micros, Do, Plain, Fold, Phys, ZeroPage;
    TakeFirst(cs, s, RTA);
    TakenKept(s, RTA);
    var x := TakeNext(Peek(Latched(s), s.mem), RTA);
    Micros1(ADDR_PC.m, x);
    AskPcDo(x);
    Onward(cs, 2, s, Held(x, s.mem), [ADDR_PC], READ, x.(addr := Phys(x.r.mpr, x.r.pc)));
    var p := Peek(x, s.mem);
    var c := TakeNext(p, RTR(2));
    MicrosNone(c);
    assert [Take(RTR(2)), INC_PC] + [] == [Take(RTR(2)), INC_PC];
    TakeMore(cs, 3, s, Held(p, s.mem), RTR(2), [], IDLE, c);
    Micros1(ASK_TA.m, c);
    AskDo(c);
    Onward(cs, 4, s, Held(c, s.mem), [ASK_TA], READ, c.(addr := ZeroPage(c.r.mpr, c.r.ta)));
    l := c.(addr := ZeroPage(c.r.mpr, c.r.ta), d := Read(s.mem, ZeroPage(c.r.mpr, c.r.ta)));
  }

  lemma OffsetDo(c: Core)
    requires Fits(Byte, c.r.tr[2])
    ensures Do(Sum(RPC, Reg(RPC), Signed(RTR(2)), W16), c) == c.(r := c.r.(pc := Displaced(c.r.pc, c.r.tr[2])))
  {
    hide SignExtend;
  }

  lemma BitBranchResult(k: Slot, on: bool, s: Cpu, l: Core, x: Core)
    requires Ready(s) && Kept(l, Past2(s)) && Kept(x, AtPC(l, Displaced(Inc16(Inc16(s.core.r.pc)), Second(s))))
    ensures var o := Result(IBranchBit(k, on), s);
      && o.mem == s.mem
      && if Digit(Read(s.mem, ZeroPage(s.core.r.mpr, First(s))), k) != on then o.cycles == 6 && Kept(l, o.c)
         else o.cycles == 8 && Kept(x, o.c)
  {
    hide Displaced, ZeroPage;
  }

  lemma BitBranchExec(k: Slot, on: bool, s: Cpu) returns (t: Cpu)
    requires Ready(s)
    ensures Refines(IBranchBit(k, on), s, t)
  {
    hide Micros, Do, EndOps, Plain, Fold, Refines, Phys, ZeroPage, Displaced, Splits1, Compile, Completes, Fetch,
      BitBranchCode, Result, EndCore, Kept;
    var i, cs := IBranchBit(k, on), BitBranchCode(k, on);
    assert Text(i) == cs && Proper(i) && PollsAtEnd(i) && ClearsAtEnd(i);
    hide Text, Proper, PollsAtEnd, ClearsAtEnd;
    BitBranchShape(k, on);
    var l := BitCyc(cs, s);
    MicrosNone(l);
    var add := Sum(RPC, Reg(RPC), Signed(RTR(2)), W16);
    t := SplitExec(cs, s, 5, [], DataBit(k, !on), [Just(add)], []);
    var x := AtPC(l, Displaced(l.r.pc, l.r.tr[2]));
    KeptSelf(x);
    KeptPC(l, Past2(s));
    BitBranchResult(k, on, s, l, x);
    if Digit(l.d, k) != on {
      BranchEndIsEnded(l);
      EndedIs(l);
      KeptEnds(i, s, t, l, 6);
    } else {
      Micros1(add, l);
      OffsetDo(l);
      assert [] + [Just(add)] == [Just(add)];
      assert Cyc(Through(cs[5], [], [Just(add)]), Held(l, s.mem)) == Held(x, s.mem);
      OneIdle(cs[6..7], Held(x, s.mem));
      MicrosNone(x);
      KeptEnds(i, s, t, x, 8);
    }
  }

  // ----- BRK -----

  /** A case that ends in a push; `c` is the core before it. */
  lemma PushCyc(cs: seq<Cycle>, k: nat, s: Cpu, h: Held, pre: seq<Op>, c: Core, v: Src, b: byte) returns (x: Core)
    requires k < |cs| && cs[k] == C(pre + PushOps(v), WRITE) && (forall op <- pre :: op.Just?) &&
      (forall y <- cs[..k] :: Plain(y))
    requires Fold(cs[..k], Hold(s)) == h && Micros(pre, h.c) == c &&
      Eval(c.(addr := StackAddr(c.r.mpr, c.r.sp)), v) == b
    ensures forall y <- cs[..k + 1] :: Plain(y)
    ensures Fold(cs[..k + 1], Hold(s)) == Held(x, h.mem[StackAddr(c.r.mpr, c.r.sp) := b]) && Kept(x, Below(c)) &&
      x.d == b
  {
    hide Fold, Micros, Do, StackAddr, Eval, Plain;
    MicrosAppend(pre, PushOps(v), h.c);
    PushDo(c, v);
    x := Micros(PushOps(v), c);
    Onward(cs, k, s, h, pre + PushOps(v), WRITE, x);
  }

  lemma BreakStatusIs(c: Core)
    requires !c.r.p.t
    ensures Eval(c, Status(true, true)) == BreakStatus(c.r.p)
  {
    hide Pack;
    assert c.r.p.(b := true, t := true && c.r.p.t) == c.r.p.(b := true, t := false);
  }

  /** BRK up to its pushes; T is already clear. */
  lemma BreakPushes(s: Cpu) returns (x: Core)
    requires Ready(s)
    ensures forall y <- BreakCode()[..4] :: Plain(y)
    ensures Fold(BreakCode()[..4], Hold(s)) == Held(x, BreakMem(s))
    ensures Kept(x, Below(Below(Below(WithT(Past1(s), false))))) && Fits(Byte, x.d)
  {
    hide Fold, Micros, Do, StackAddr, Eval, Plain, EndOps, Phys, Pack, Inc16, Dec8;
    var cs, p := BreakCode(), Peek(Latched(s), s.mem);
    FirstCyc(cs, s);
    PeekKept(s);
    Twice(s.core.r.pc);
    Micros1(INC_PC.m, p);
    IncPcDo(p);
    var c1 := p.(r := p.r.(pc := Inc16(p.r.pc)));
    HalvesOfPC(c1.(addr := StackAddr(c1.r.mpr, c1.r.sp)));
    x := PushCyc(cs, 1, s, Held(p, s.mem), [INC_PC], c1, Hi(RPC), AsByte(c1.r.pc / 256));
    MicrosNone(x);
    assert [] + PushOps(Lo(RPC)) == PushOps(Lo(RPC));
    HalvesOfPC(x.(addr := StackAddr(x.r.mpr, x.r.sp)));
    var c2, m2 := x, s.mem[Slot1(s.core.r) := AsByte(c1.r.pc / 256)];
    x := PushCyc(cs, 2, s, Held(c2, m2), [], c2, Lo(RPC), AsByte(c1.r.pc % 256));
    var c3 := WithT(x, false);
    Micros1(PutFlag(FT, false), x);
    DoEnd(x);
    BreakStatusIs(c3.(addr := StackAddr(c3.r.mpr, c3.r.sp)));
    StatusForgets(s.core.r.p);
    x := PushCyc(cs, 3, s, Held(x, m2[Slot2(s.core.r) := AsByte(c1.r.pc % 256)]), [Just(PutFlag(FT, false))], c3,
      Status(true, true), BreakStatus(s.core.r.p));
  }

  lemma StatusForgets(p: Flags)
    ensures BreakStatus(p.(t := false)) == BreakStatus(p)
  {
    hide Pack;
    assert p.(t := false).(b := true, t := false) == p.(b := true, t := false);
  }

  const BREAK_FLAGS: seq<Op> := [Just(PutFlag(FD, false)), Just(PutFlag(FI, true)), Just(AddrMapped(Num(0xFFF6)))]

  lemma VectorDos(l: Core)
    requires Fits(Byte, l.d)
    ensures Micros(BREAK_FLAGS, l) == l.(addr := Phys(l.r.mpr, 0xFFF6), r := l.r.(p := l.r.p.(d := false, i := true)))
    ensures Micros([Take(RPC), Just(AddrMapped(Num(0xFFF7)))], l) ==
      l.(addr := Phys(l.r.mpr, 0xFFF7), r := l.r.(pc := l.d))
  {
    hide Micros, Do, Phys;
    Micros3(PutFlag(FD, false), PutFlag(FI, true), AddrMapped(Num(0xFFF6)), l);
    Micros2(Take(RPC).m, AddrMapped(Num(0xFFF7)), l);
    FlagDo(l, FD, false);
    var c := l.(r := l.r.(p := l.r.p.(d := false)));
    FlagDo(c, FI, true);
    VectorAsk(c.(r := c.r.(p := c.r.p.(i := true))));
    TakeDo(l, RPC);
    VectorAsk(l.(r := l.r.(pc := l.d)));
  }

  lemma VectorAsk(c: Core)
    ensures Do(AddrMapped(Num(0xFFF6)), c) == c.(addr := Phys(c.r.mpr, 0xFFF6))
    ensures Do(AddrMapped(Num(0xFFF7)), c) == c.(addr := Phys(c.r.mpr, 0xFFF7))
  {
    hide Phys;
  }

  lemma BreakExec(s: Cpu) returns (t: Cpu)
    requires Ready(s)
    ensures Refines(IBreak, s, t)
  {
    hide Fold, Micros, Do, StackAddr, Plain, EndOps, Phys, Refines, Fetch, BreakMem, Word;
    var cs, mem := BreakCode(), BreakMem(s);
    var x := BreakPushes(s);
    var l := VectorLoads(s, x);
    TakeMicros(l);
    var ops := [Take(RTA), JOIN_PC];
    Onward(cs, 6, s, Held(l, mem), ops, IDLE, Micros(ops, l));
    t := PlainEnd(IBreak, cs, s, Micros(ops, l));
  }

  /** The vector of BRK: one byte in PC, the other in D. */
  lemma VectorLoads(s: Cpu, x: Core) returns (l: Core)
    requires Ready(s) && (forall y <- BreakCode()[..4] :: Plain(y)) &&
      Fold(BreakCode()[..4], Hold(s)) == Held(x, BreakMem(s))
    requires Kept(x, Below(Below(Below(WithT(Past1(s), false))))) && Fits(Byte, x.d)
    ensures forall y <- BreakCode()[..6] :: Plain(y)
    ensures Fold(BreakCode()[..6], Hold(s)) == Held(l, BreakMem(s)) && Fits(Byte, l.d) && Fits(Byte, l.r.pc)
    ensures Kept(l, AtPC(BreakCore(s), l.r.pc)) && Word(l.r.pc, l.d) == WordAt(s.core.r.mpr, BreakMem(s), 0xFFF6)
  {
    hide Fold, Micros, Do, StackAddr, Plain, EndOps, Phys, BreakMem, Word;
    var cs, mem := BreakCode(), BreakMem(s);
    VectorDos(x);
    Onward(cs, 4, s, Held(x, mem), BREAK_FLAGS, READ, Micros(BREAK_FLAGS, x));
    var y := Micros(BREAK_FLAGS, x).(d := Read(mem, Micros(BREAK_FLAGS, x).addr));
    VectorDos(y);
    var ops := [Take(RPC), Just(AddrMapped(Num(0xFFF7)))];
    Onward(cs, 5, s, Held(y, mem), ops, READ, Micros(ops, y));
    l := Micros(ops, y).(d := Read(mem, Micros(ops, y).addr));
  }
}
