/**
 Instructions without operand bytes, stack and bank instructions, jumps and stores: the generated
 microcode, run from a boundary, does what HucIsa says, in the cycles it says.
 */
module HucRefineBasics {
  import opened Common
  import opened BitOps
  import opened HucMachine
  import opened HucMicrocode
  import opened HucCertify
  import opened HucSwitchgen
  import opened HucText
  import opened HucExec
  import opened HucOperands
  import opened HucTMode
  import opened HucBlockMove
  import opened HucCalls
  import opened HucInterrupts
  import opened HucStraight
  import opened HucIsa

  // ----- Common steps -----

  lemma KeptView(c: Core, e: Core, poll: bool, clearT: bool)
    requires Kept(c, e)
    ensures View(EndCore(poll, clearT, Fetch(c))) == View(EndCore(poll, clearT, Fetch(e)))
  {
    KeptFetch(c, e);
    hide Fetch, Poll;
    KeptPoll(Fetch(c), Fetch(e));
  }

  lemma KeptFetch(c: Core, e: Core)
    requires Kept(c, e)
    ensures Kept(Fetch(c), Fetch(e)) && Fetch(c).addr == Fetch(e).addr
  {
    hide Phys;
  }

  lemma KeptPoll(c: Core, e: Core)
    requires Kept(c, e)
    ensures Kept(Poll(c), Poll(e)) && Poll(c).addr == c.addr && Poll(e).addr == e.addr
  {
  }

  /** The microcode of `i`, as emitted and run from `s`, takes the cycles of `i` and ends as `i` does. */
  ghost predicate Refines(i: Instr, s: Cpu, t: Cpu) {
    Ready(s) && Proper(i) && Completes(Compile(Text(i)), s, Result(i, s).cycles, t) && Ends(i, s, t)
  }

  lemma KeptEnds(i: Instr, s: Cpu, t: Cpu, x: Core, n: nat)
    requires Ready(s) && Proper(i) && Kept(x, Result(i, s).c) && n == Result(i, s).cycles
    requires t == Cpu(Closing(i, x), 0, true, false, Result(i, s).mem) && Completes(Compile(Text(i)), s, n, t)
    ensures Refines(i, s, t)
  {
    hide Result, Fetch, EndCore, View, Kept, Completes, Compile, Text, Proper;
    KeptView(x, Result(i, s).c, PollsAtEnd(i), ClearsAtEnd(i));
  }

  /** The byte at PC, asked for and delivered. */
  function Peek(c: Core, mem: map<int, byte>): Core
    requires Word16(c.r.pc)
  {
    c.(addr := Phys(c.r.mpr, c.r.pc), d := Read(mem, Phys(c.r.mpr, c.r.pc)))
  }

  lemma PeekCyc(pre: seq<Op>, h: Held, c: Core)
    requires (forall op <- pre :: op.Just?) && Micros(pre, h.c) == c && Word16(c.r.pc)
    ensures Plain(C(pre + [ADDR_PC], READ)) && Cyc(C(pre + [ADDR_PC], READ), h) == Held(Peek(c, h.mem), h.mem)
  {
    hide Do, Micros, Phys;
    MicrosAppend(pre, [ADDR_PC], h.c);
    Micros1(ADDR_PC.m, c);
    AskPcDo(c);
  }

  /** The first case of almost every instruction. */
  lemma FirstCyc(cs: seq<Cycle>, s: Cpu)
    requires Ready(s) && |cs| > 0 && cs[0] == C([ADDR_PC], READ)
    ensures Plain(cs[0]) && Fold(cs[..1], Hold(s)) == Held(Peek(Latched(s), s.mem), s.mem)
  {
    hide Micros, Phys, Cyc;
    MicrosNone(Latched(s));
    assert [] + [ADDR_PC] == [ADDR_PC];
    PeekCyc([], Hold(s), Latched(s));
    assert cs[..1] == [] + [cs[0]];
    FoldOne([], cs[0], Hold(s));
  }

  lemma FoldNext(cs: seq<Cycle>, k: nat, h: Held)
    requires k < |cs| && (forall x <- cs[..k] :: Plain(x)) && Plain(cs[k])
    ensures (forall x <- cs[..k + 1] :: Plain(x)) && Fold(cs[..k + 1], h) == Cyc(cs[k], Fold(cs[..k], h))
  {
    hide Plain, Cyc;
    FoldOne(cs[..k], cs[k], h);
    assert cs[..k + 1] == cs[..k] + [cs[k]];
  }

  // ----- A dummy read, then everything in the last case -----

  lemma ShortExec(ops: seq<Op>, poll: bool, clearT: bool, s: Cpu) returns (t: Cpu)
    requires Ready(s) && forall op <- ops :: op.Just?
    ensures Completes(Compile(ShortCode(ops, poll, clearT)), s, 2, t)
    ensures t == Cpu(EndCore(poll, clearT, Fetch(Micros(ops, Peek(Latched(s), s.mem)))), 0, true, false, s.mem)
  {
    hide Micros, Phys, Compile, Completes, EndOps, EndCore, Fetch, Plain;
    var cs := ShortCode(ops, poll, clearT);
    FirstCyc(cs, s);
    assert cs[..1] == [cs[0]];
    t := StraightExec(cs, s, ops, poll, clearT);
  }

  lemma AluKept(c: Core, e: Core, f: AluOp, dt: Reg, src: Src, v: byte)
    requires Kept(c, e) && Fits(Byte, e.r.a) && Eval(c, src) == v && (IsMain(dt) || !Stores(f))
    requires src == Data || src == Reg(RTR(0)) || (src == Reg(dt) && IsMain(dt) && Stores(f))
    ensures Kept(Do(Alu(f, dt, src), c), WithResult(e, f, dt, AluEval(f, e.r, v)))
  {
    hide AluEval;
    assert AluEval(f, c.r.(a := AsByte(c.r.a)), v) == AluEval(f, e.r, v) by {
      AluSees(f, c.r.(a := AsByte(c.r.a)), e.r, v);
    }
  }

  /** The arithmetic reads A, X, Y and the flags. */
  lemma AluSees(f: AluOp, r: Regs, e: Regs, v: byte)
    requires Fits(Byte, r.a) && r.a == e.a && r.x == e.x && r.y == e.y && r.p == e.p
    ensures AluEval(f, r, v) == AluEval(f, e, v)
  {
    hide BitOr, BitAnd, BitXor, AddBinary, AddDecimal, SubDecimal, Compare, NZ;
  }

  lemma PeekKept(s: Cpu)
    requires Ready(s)
    ensures Kept(Peek(Latched(s), s.mem), s.core) && Fits(Byte, Peek(Latched(s), s.mem).d)
  {
    hide Phys;
  }

  lemma AluExec(f: AluOp, dt: Reg, s: Cpu) returns (t: Cpu)
    requires Ready(s) && Proper(IAlu(f, dt))
    ensures Refines(IAlu(f, dt), s, t)
  {
    hide Micros, Peek, Compile, Completes, EndOps, EndCore, Fetch, AluEval, ShortCode, Do, Refines;
    var ops, p := [Just(Alu(f, dt, Reg(dt)))], Peek(Latched(s), s.mem);
    t := ShortExec(ops, true, true, s);
    PeekKept(s);
    Micros1(Alu(f, dt, Reg(dt)), p);
    AluKept(p, s.core, f, dt, Reg(dt), Get(s.core.r, dt));
    KeptEnds(IAlu(f, dt), s, t, Micros(ops, p), 2);
  }

  /** Statements of the short instructions. */
  lemma ShortDo(c: Core, e: Core, m: Micro)
    requires Kept(c, e)
    ensures m.PutFlag? ==> Kept(Do(m, c), WithFlags(e, SetFlag(e.r.p, m.flag, m.on)))
    ensures m.Speed? ==> Kept(Do(m, c), e.(clockDiv := m.n))
    ensures m.SetNZ? && IsMain(m.dst) ==> Kept(Do(m, c), WithFlags(e, NZ(e.r.p, Get(e.r, m.dst))))
    ensures m.PollIrqs? ==> Kept(Do(m, c), Poll(e))
  {
    hide NZ, SetFlag;
  }

  lemma MoveDo(c: Core, e: Core, dst: Reg, v: Src)
    requires Kept(c, e) && SaneRegs(AT_BOUNDARY, e.r) && (IsMain(dst) || dst == RS)
    ensures v == Num(0) ==> Kept(Do(Move(dst, v), c), WithReg(e, dst, 0))
    ensures v.Reg? && (IsMain(v.g) || v.g == RS) ==> Kept(Do(Move(dst, v), c), WithReg(e, dst, Get(e.r, v.g)))
    ensures v.Data? && Fits(Byte, c.d) ==> Kept(Do(Move(dst, v), c), WithReg(e, dst, c.d))
  {
  }

  lemma ClearExec(x: Target, s: Cpu) returns (t: Cpu)
    requires Ready(s) && Proper(IClear(x))
    ensures Refines(IClear(x), s, t)
  {
    hide Micros, Peek, Compile, Completes, EndOps, EndCore, Fetch, ShortCode, Do, Refines;
    var m := if x.Register? then Move(x.g, Num(0)) else PutFlag(x.f, false);
    var p := Peek(Latched(s), s.mem);
    t := ShortExec([Just(m)], x != Flag(FI), true, s);
    PeekKept(s);
    Micros1(m, p);
    ShortDo(p, s.core, m);
    if x.Register? {
      MoveDo(p, s.core, x.g, Num(0));
    }
    KeptEnds(IClear(x), s, t, Micros([Just(m)], p), 2);
  }

  lemma StackPointerExec(s: Cpu) returns (t: Cpu)
    requires Ready(s)
    ensures Refines(IStackPointer, s, t)
  {
    hide Micros, Peek, Compile, Completes, EndOps, EndCore, Fetch, ShortCode, Do, Refines;
    var m, p := Move(RS, Reg(RX)), Peek(Latched(s), s.mem);
    t := ShortExec([Just(m)], true, true, s);
    PeekKept(s);
    Micros1(m, p);
    MoveDo(p, s.core, RS, Reg(RX));
    KeptEnds(IStackPointer, s, t, Micros([Just(m)], p), 2);
  }

  lemma NopExec(s: Cpu) returns (t: Cpu)
    requires Ready(s)
    ensures Refines(INop, s, t)
  {
    hide Peek, Compile, Completes, EndOps, EndCore, Fetch, ShortCode, Refines;
    t := ShortExec([], true, true, s);
    PeekKept(s);
    MicrosNone(Peek(Latched(s), s.mem));
    KeptEnds(INop, s, t, Peek(Latched(s), s.mem), 2);
  }

  lemma WithRegSane(e: Core, g: Reg, v: int)
    requires SaneRegs(AT_BOUNDARY, e.r) && Fits(Byte, v) && (IsMain(g) || g == RS)
    ensures SaneRegs(AT_BOUNDARY, WithReg(e, g, v).r) && Get(WithReg(e, g, v).r, g) == v
  {
  }

  lemma MainIsByte(r: Regs, g: Reg)
    requires SaneRegs(AT_BOUNDARY, r) && (IsMain(g) || g == RS)
    ensures Fits(Byte, Get(r, g))
  {
  }

  lemma TransferMicros(src: Reg, dst: Reg, s: Cpu, p: Core)
    requires Ready(s) && Proper(ITransfer(src, dst)) && Kept(p, s.core)
    ensures Kept(Micros([Just(Move(dst, Reg(src))), Just(SetNZ(dst))], p), Result(ITransfer(src, dst), s).c)
  {
    hide Micros, Do, Get, NZ;
    var m, v := Move(dst, Reg(src)), Get(s.core.r, src);
    Micros2(m, SetNZ(dst), p);
    MoveDo(p, s.core, dst, Reg(src));
    MainIsByte(s.core.r, src);
    WithRegSane(s.core, dst, v);
    ShortDo(Do(m, p), WithReg(s.core, dst, v), SetNZ(dst));
    SetKeepsFlags(s.core.r, dst, v);
  }

  lemma TransferExec(src: Reg, dst: Reg, s: Cpu) returns (t: Cpu)
    requires Ready(s) && Proper(ITransfer(src, dst))
    ensures Refines(ITransfer(src, dst), s, t)
  {
    hide Micros, Peek, Compile, Completes, EndOps, EndCore, Fetch, ShortCode, Do, Get, NZ, Refines;
    var ops, p := [Just(Move(dst, Reg(src))), Just(SetNZ(dst))], Peek(Latched(s), s.mem);
    t := ShortExec(ops, true, true, s);
    PeekKept(s);
    TransferMicros(src, dst, s, p);
    KeptEnds(ITransfer(src, dst), s, t, Micros(ops, p), 2);
  }

  lemma SetKeepsFlags(r: Regs, g: Reg, v: int)
    ensures Set(r, g, v).p == r.p
  {
  }

  /** The first case of SEI polls for interrupts before I is set. */
  lemma SetFirst(f: FlagName, s: Cpu) returns (q: Core)
    requires Ready(s)
    ensures var cs := Text(ISet(f));
      Plain(cs[0]) && Fold(cs[..1], Hold(s)) == Held(q, s.mem) && Kept(q, if f == FI then Poll(s.core) else s.core)
  {
    hide Micros, EndOps, EndCore, Fetch, Do, Plain, Phys, Poll;
    var cs, l := Text(ISet(f)), Latched(s);
    var pre, p := [ADDR_PC] + if f == FI then [Just(PollIrqs)] else [], Peek(Latched(s), s.mem);
    q := if f == FI then Poll(p) else p;
    Micros1(ADDR_PC.m, l);
    AskPcDo(l);
    Micros2(ADDR_PC.m, PollIrqs, l);
    DoEnd(l.(addr := p.addr));
    DoEnd(p);
    assert f != FI ==> pre == [ADDR_PC];
    assert f == FI ==> pre == [ADDR_PC, Just(PollIrqs)];
    assert Plain(cs[0]) by { SetPlain(f); }
    PollAddr(l, p);
    assert cs[..0] == [];
    FoldNext(cs, 0, Hold(s));
    PeekKept(s);
    ShortDo(p, s.core, PollIrqs);
  }

  lemma SetExec(f: FlagName, s: Cpu) returns (t: Cpu)
    requires Ready(s)
    ensures Refines(ISet(f), s, t)
  {
    hide Micros, EndOps, EndCore, Fetch, Do, Refines, Plain, Poll, SetFlag, Compile, Completes;
    var cs := Text(ISet(f));
    var q := SetFirst(f, s);
    assert cs[..1] == [cs[0]];
    Micros1(PutFlag(f, true), q);
    PollKeeps(s.core);
    ShortDo(q, if f == FI then Poll(s.core) else s.core, PutFlag(f, true));
    t := WorkEnd(ISet(f), cs, s, q, [Just(PutFlag(f, true))], Do(PutFlag(f, true), q));
  }

  lemma SetPlain(f: FlagName)
    ensures Plain(Text(ISet(f))[0])
  {
  }

  lemma PollAddr(l: Core, p: Core)
    requires p == l.(addr := p.addr, d := p.d)
    ensures Poll(l.(addr := p.addr)).(d := p.d) == Poll(p) && Poll(l.(addr := p.addr)).addr == p.addr
  {
  }

  lemma PollKeeps(c: Core)
    ensures Poll(c).r == c.r
  {
  }

  // ----- A few idle, read or write cases -----

  lemma SwapExec(d1: Reg, d2: Reg, s: Cpu) returns (t: Cpu)
    requires Ready(s) && Proper(ISwap(d1, d2))
    ensures Refines(ISwap(d1, d2), s, t)
  {
    hide Micros, Compile, Completes, EndOps, EndCore, Fetch, Do, Ends, Plain, Phys, Get, Set;
    var cs, p := Text(ISwap(d1, d2)), Peek(Latched(s), s.mem);
    FirstCyc(cs, s);
    IdleCyc(cs, 1, s);
    assert cs[..2] == cs[..|cs| - 1];
    var ops := [Just(Move(RTA, Reg(d1))), Just(Move(d1, Reg(d2))), Just(Move(d2, Reg(RTA)))];
    t := StraightExec(cs, s, ops, true, true);
    Micros3(Move(RTA, Reg(d1)), Move(d1, Reg(d2)), Move(d2, Reg(RTA)), p);
    SwapDo(p, s.core, d1, d2);
    KeptEnds(ISwap(d1, d2), s, t, Micros(ops, p), 3);
  }

  /** An idle case in the middle. */
  lemma IdleCyc(cs: seq<Cycle>, k: nat, s: Cpu)
    requires k < |cs| && cs[k] == C([], IDLE) && (forall x <- cs[..k] :: Plain(x))
    ensures (forall x <- cs[..k + 1] :: Plain(x)) && Fold(cs[..k + 1], Hold(s)) == Fold(cs[..k], Hold(s))
  {
    hide Fold;
    FoldNext(cs, k, Hold(s));
    MicrosNone(Fold(cs[..k], Hold(s)).c);
  }

  lemma SwapDo(c: Core, e: Core, d1: Reg, d2: Reg)
    requires Kept(c, e) && SaneRegs(AT_BOUNDARY, e.r) && IsMain(d1) && IsMain(d2)
    ensures Kept(Do(Move(d2, Reg(RTA)), Do(Move(d1, Reg(d2)), Do(Move(RTA, Reg(d1)), c))),
                 WithReg(WithReg(e, d1, Get(e.r, d2)), d2, Get(e.r, d1)))
  {
    var c1, v, w := Do(Move(RTA, Reg(d1)), c), Get(e.r, d1), Get(e.r, d2);
    assert c1 == c.(r := c.r.(ta := v)) && 0 <= v < 256;
    MoveDo(c1, e, d1, Reg(d2));
    var c2 := Do(Move(d1, Reg(d2)), c1);
    assert c2.r.ta == v;
  }

  /** One more case: `x` is the core after its statements. */
  lemma Onward(cs: seq<Cycle>, k: nat, s: Cpu, h: Held, ops: seq<Op>, pins: Pins, x: Core)
    requires k < |cs| && cs[k] == C(ops, pins) && (forall op <- ops :: op.Just?) && (forall y <- cs[..k] :: Plain(y))
    requires Fold(cs[..k], Hold(s)) == h && Micros(ops, h.c) == x
    ensures forall y <- cs[..k + 1] :: Plain(y)
    ensures var m := Write1(h.mem, x, pins.wr);
      Fold(cs[..k + 1], Hold(s)) == Held(if pins.rd then x.(d := Read(m, x.addr)) else x, m)
  {
    hide Fold, Micros;
    FoldNext(cs, k, Hold(s));
  }

  /** The end of an instruction whose last case adds nothing. */
  lemma PlainEnd(i: Instr, cs: seq<Cycle>, s: Cpu, x: Core) returns (t: Cpu)
    requires Ready(s) && Proper(i) && cs == Text(i) && |cs| > 0 &&
      cs[|cs| - 1] == Ending([], PollsAtEnd(i), ClearsAtEnd(i))
    requires |cs| == Result(i, s).cycles && (forall y <- cs[..|cs| - 1] :: Plain(y))
    requires Fold(cs[..|cs| - 1], Hold(s)) == Held(x, Result(i, s).mem) && Kept(x, Result(i, s).c)
    ensures Refines(i, s, t)
  {
    MicrosNone(x);
    t := WorkEnd(i, cs, s, x, [], x);
  }

  /** The end of an instruction whose last case runs `ops`. */
  lemma WorkEnd(i: Instr, cs: seq<Cycle>, s: Cpu, w: Core, ops: seq<Op>, x: Core) returns (t: Cpu)
    requires Ready(s) && Proper(i) && cs == Text(i) && |cs| > 0 &&
      cs[|cs| - 1] == Ending(ops, PollsAtEnd(i), ClearsAtEnd(i))
    requires |cs| == Result(i, s).cycles && (forall y <- cs[..|cs| - 1] :: Plain(y)) && forall op <- ops :: op.Just?
    requires Fold(cs[..|cs| - 1], Hold(s)) == Held(w, Result(i, s).mem) && Micros(ops, w) == x &&
      Kept(x, Result(i, s).c)
    ensures Refines(i, s, t)
  {
    hide Micros, Compile, Completes, EndOps, EndCore, Fetch, Refines, Plain, Result, Fold, Kept, Text, Proper,
      PollsAtEnd, ClearsAtEnd;
    t := StraightExec(cs, s, ops, PollsAtEnd(i), ClearsAtEnd(i));
    KeptEnds(i, s, t, x, |cs|);
  }

  /** Cases 1 and 2: the byte at PC into `g`. */
  lemma TakeFirst(cs: seq<Cycle>, s: Cpu, g: Reg)
    requires Ready(s) && |cs| > 1 && cs[0] == C([ADDR_PC], READ) && cs[1] == C([Take(g), INC_PC], IDLE) && g != RPC
    ensures forall y <- cs[..2] :: Plain(y)
    ensures Fold(cs[..2], Hold(s)) == Held(TakeNext(Peek(Latched(s), s.mem), g), s.mem)
  {
    hide Fold, Micros, Phys, Do, TakeNext, Plain;
    FirstCyc(cs, s);
    PeekKept(s);
    var p := Peek(Latched(s), s.mem);
    TakeNextMicros(p, g);
    assert cs[..1] == [cs[0]];
    Onward(cs, 1, s, Held(p, s.mem), [Take(g), INC_PC], IDLE, TakeNext(p, g));
  }

  lemma TakenKept(s: Cpu, g: Reg)
    requires Ready(s) && (g == RTA || g.RTR?)
    ensures var x := TakeNext(Peek(Latched(s), s.mem), g);
      Kept(x, Past1(s)) && Get(x.r, g) == First(s) && x.r.pc == Inc16(s.core.r.pc)
  {
    hide Phys;
  }

  lemma SpeedExec(div: nat, s: Cpu) returns (t: Cpu)
    requires Ready(s)
    ensures Refines(ISpeed(div), s, t)
  {
    hide Micros, Compile, Completes, EndOps, EndCore, Fetch, Do, Ends, Plain, Phys, Fold;
    var cs, p := Text(ISpeed(div)), Peek(Latched(s), s.mem);
    FirstCyc(cs, s);
    PeekKept(s);
    assert cs[..1] == [cs[0]];
    Micros1(Speed(div), p);
    ShortDo(p, s.core, Speed(div));
    Onward(cs, 1, s, Held(p, s.mem), [Just(Speed(div))], IDLE, Do(Speed(div), p));
    t := PlainEnd(ISpeed(div), cs, s, Do(Speed(div), p));
  }

  lemma StoreDoes(c: Core, addr: nat)
    ensures Micros([Just(AddrFixed(addr)), Just(Out(Reg(RTR(0))))], c) == c.(addr := addr, d := c.r.tr[0])
  {
    hide Micros;
    Micros2(AddrFixed(addr), Out(Reg(RTR(0))), c);
  }

  lemma StoreExec(addr: nat, s: Cpu) returns (t: Cpu)
    requires Ready(s)
    ensures Refines(IStore(addr), s, t)
  {
    hide Micros, EndOps, Fetch, Refines, Plain, Phys, Fold, TakeNext, Do, Peek, EndCore;
    var i := IStore(addr);
    var cs, c := Text(i), TakeNext(Peek(Latched(s), s.mem), RTR(0));
    TakeFirst(cs, s, RTR(0));
    TakenKept(s, RTR(0));
    StoreDoes(c, addr);
    var x := c.(addr := addr, d := c.r.tr[0]);
    Onward(cs, 2, s, Held(c, s.mem), [Just(AddrFixed(addr)), Just(Out(Reg(RTR(0))))], WRITE, x);
    assert Kept(x, Past1(s));
    t := PlainEnd(i, cs, s, x);
  }

  lemma PushExec(v: Src, s: Cpu) returns (t: Cpu)
    requires Ready(s) && Proper(IPush(v))
    ensures Refines(IPush(v), s, t)
  {
    hide Micros, Compile, Completes, EndOps, EndCore, Fetch, Refines, Plain, Phys, Fold, StackAddr, Do, Pack;
    var cs, p := Text(IPush(v)), Peek(Latched(s), s.mem);
    assert Text(IPush(v)) == cs && Proper(IPush(v)) && PollsAtEnd(IPush(v)) && ClearsAtEnd(IPush(v));
    hide Proper, PollsAtEnd, ClearsAtEnd;
    FirstCyc(cs, s);
    PeekKept(s);
    assert cs[..1] == [cs[0]];
    PushDo(p, v);
    Onward(cs, 1, s, Held(p, s.mem), PushOps(v), WRITE, Micros(PushOps(v), p));
    t := PlainEnd(IPush(v), cs, s, Micros(PushOps(v), p));
  }

  /** A dummy read, an idle case and a pull. */
  lemma PullCyc(cs: seq<Cycle>, s: Cpu) returns (x: Core)
    requires Ready(s) && |cs| > 3 && cs[0] == C([ADDR_PC], READ) && cs[1] == C([], IDLE) && cs[2] == C(PULL_OPS, READ)
    ensures forall y <- cs[..3] :: Plain(y)
    ensures Fold(cs[..3], Hold(s)) == Held(x, s.mem) && Kept(x, WithReg(s.core, RS, Inc8(s.core.r.sp)))
    ensures x.d == Read(s.mem, StackAddr(s.core.r.mpr, Inc8(s.core.r.sp)))
  {
    hide Micros, Plain, Phys, Fold, StackAddr, Do;
    var p := Peek(Latched(s), s.mem);
    FirstCyc(cs, s);
    PeekKept(s);
    assert cs[..1] == [cs[0]];
    IdleCyc(cs, 1, s);
    Micros2(INC_S.m, AddrStack, p);
    PullDo(p);
    PullDo(p.(r := p.r.(sp := Inc8(p.r.sp))));
    var c := Micros(PULL_OPS, p);
    Onward(cs, 2, s, Held(p, s.mem), PULL_OPS, READ, c);
    x := c.(d := Read(s.mem, c.addr));
  }

  lemma PullExec(dt: Reg, s: Cpu) returns (t: Cpu)
    requires Ready(s) && Proper(IPull(dt))
    ensures Refines(IPull(dt), s, t)
  {
    hide Micros, Compile, Completes, EndOps, EndCore, Fetch, Refines, Plain, Phys, Fold, StackAddr, Do, NZ, Get;
    var cs := Text(IPull(dt));
    assert Text(IPull(dt)) == cs && Proper(IPull(dt)) && PollsAtEnd(IPull(dt)) && ClearsAtEnd(IPull(dt));
    hide Proper, PollsAtEnd, ClearsAtEnd;
    var x := PullCyc(cs, s);
    var e := WithReg(s.core, RS, Inc8(s.core.r.sp));
    Micros2(Take(dt).m, SetNZ(dt), x);
    WithRegSane(s.core, RS, Inc8(s.core.r.sp));
    MoveDo(x, e, dt, Data);
    WithRegSane(e, dt, x.d);
    ShortDo(Do(Take(dt).m, x), WithReg(e, dt, x.d), SetNZ(dt));
    SetKeepsFlags(e.r, dt, x.d);
    var ops := [Take(dt), Just(SetNZ(dt))];
    t := WorkEnd(IPull(dt), cs, s, x, ops, Micros(ops, x));
  }

  lemma PullPExec(s: Cpu) returns (t: Cpu)
    requires Ready(s)
    ensures Refines(IPullP, s, t)
  {
    hide Micros, Compile, Completes, EndOps, EndCore, Fetch, Refines, Plain, Phys, Fold, StackAddr, Do, Unpack;
    var cs := Text(IPullP);
    var x := PullCyc(cs, s);
    StatusMicros(x);
    var ops := [Just(LoadStatus), Just(DropBrk)];
    t := WorkEnd(IPullP, cs, s, x, ops, Micros(ops, x));
  }

  lemma {:induction false} SetBanksIs(mpr: File8, mask: nat, value: int, k: nat)
    requires k <= 8
    ensures forall j :: 0 <= j < 8 ==>
      SetBanks(mpr, mask, value, k)[j] == if k <= j && Digit(mask, j) then value else mpr[j]
    decreases 8 - k
  {
    if k < 8 {
      SetBanksIs(if Digit(mask, k) then mpr[k := value] else mpr, mask, value, k + 1);
    }
  }

  lemma NoDigits(k: nat)
    ensures !Digit(0, k)
  {
  }

  /** TAM: every bank the mask selects gets A; a zero mask changes nothing. */
  lemma BanksDo(c: Core)
    requires Fits(Byte, c.r.ta)
    ensures Do(StoreBanks, c)
         == c.(r := c.r.(mpl := if c.r.ta > 0 then c.r.a else c.r.mpl, mpr := Banked(c.r.mpr, c.r.ta, c.r.a * 8192)))
  {
    hide Digit;
    SetBanksIs(c.r.mpr, c.r.ta, c.r.a * 8192, 0);
    if c.r.ta == 0 {
      forall k: nat | k < 8
        ensures !Digit(0, k)
      {
        NoDigits(k);
      }
      assert Banked(c.r.mpr, 0, c.r.a * 8192) == c.r.mpr;
    } else {
      assert SetBanks(c.r.mpr, c.r.ta, c.r.a * 8192, 0) == Banked(c.r.mpr, c.r.ta, c.r.a * 8192);
    }
  }

  lemma ToBanksExec(s: Cpu) returns (t: Cpu)
    requires Ready(s)
    ensures Refines(IToBanks, s, t)
  {
    hide Micros, Compile, Completes, EndOps, EndCore, Fetch, Refines, Plain, Phys, Fold, TakeNext, Do, Banked;
    var cs, c := Text(IToBanks), TakeNext(Peek(Latched(s), s.mem), RTA);
    assert Text(IToBanks) == cs && Proper(IToBanks) && PollsAtEnd(IToBanks) && ClearsAtEnd(IToBanks);
    hide Proper, PollsAtEnd, ClearsAtEnd;
    TakeFirst(cs, s, RTA);
    TakenKept(s, RTA);
    IdleCyc(cs, 2, s);
    Micros1(StoreBanks, c);
    BanksDo(c);
    Onward(cs, 3, s, Held(c, s.mem), [Just(StoreBanks)], IDLE, Do(StoreBanks, c));
    t := PlainEnd(IToBanks, cs, s, Do(StoreBanks, c));
  }

  lemma FromBanksDo(c: Core)
    requires Fits(Byte, c.r.tr[0])
    ensures var mpl := if c.r.tr[0] > 0 then OrBanks(c.r.mpr, c.r.tr[0], 0, 0) else c.r.mpl;
      Do(LoadBanks, c) == c.(r := c.r.(mpl := mpl, a := mpl))
  {
    hide OrBanks;
  }

  lemma FromBanksExec(s: Cpu) returns (t: Cpu)
    requires Ready(s)
    ensures Refines(IFromBanks, s, t)
  {
    hide Micros, Compile, Completes, EndOps, EndCore, Fetch, Refines, Plain, Phys, Fold, TakeNext, Do, OrBanks;
    var cs, c := Text(IFromBanks), TakeNext(Peek(Latched(s), s.mem), RTR(0));
    assert Text(IFromBanks) == cs && Proper(IFromBanks) && PollsAtEnd(IFromBanks) && ClearsAtEnd(IFromBanks);
    hide Proper, PollsAtEnd, ClearsAtEnd;
    TakeFirst(cs, s, RTR(0));
    TakenKept(s, RTR(0));
    IdleCyc(cs, 2, s);
    Micros1(LoadBanks, c);
    FromBanksDo(c);
    t := WorkEnd(IFromBanks, cs, s, c, [Just(LoadBanks)], Do(LoadBanks, c));
  }

  // ----- Addresses -----

  /** A case that takes an operand byte, and `more`. */
  lemma TakeMore(cs: seq<Cycle>, k: nat, s: Cpu, h: Held, g: Reg, more: seq<Op>, pins: Pins, x: Core)
    requires k < |cs| && cs[k] == C([Take(g), INC_PC] + more, pins) && (forall op <- more :: op.Just?) &&
      (forall y <- cs[..k] :: Plain(y))
    requires Fold(cs[..k], Hold(s)) == h && g != RPC && Fits(Byte, h.c.d) && Micros(more, TakeNext(h.c, g)) == x
    ensures forall y <- cs[..k + 1] :: Plain(y)
    ensures var m := Write1(h.mem, x, pins.wr);
      Fold(cs[..k + 1], Hold(s)) == Held(if pins.rd then x.(d := Read(m, x.addr)) else x, m)
  {
    hide Fold, Micros, Do, TakeNext, Plain;
    TakeNextMicros(h.c, g);
    MicrosAppend([Take(g), INC_PC], more, h.c);
    Onward(cs, k, s, h, [Take(g), INC_PC] + more, pins, x);
  }

  /** The byte at PC taken, the next one asked for. */
  lemma TakeAsk(cs: seq<Cycle>, k: nat, s: Cpu, h: Held, g: Reg)
    requires k < |cs| && cs[k] == C([Take(g), INC_PC, ADDR_PC], READ) && (forall y <- cs[..k] :: Plain(y))
    requires Fold(cs[..k], Hold(s)) == h && g != RPC && Fits(Byte, h.c.d) && Word16(h.c.r.pc)
    ensures forall y <- cs[..k + 1] :: Plain(y)
    ensures Fold(cs[..k + 1], Hold(s)) == Held(Peek(TakeNext(h.c, g), h.mem), h.mem)
  {
    hide Fold, Micros, Do, Set, Phys, Plain;
    var c := TakeNext(h.c, g);
    SetKeepsPC(h.c.r, g, h.c.d);
    Micros1(ADDR_PC.m, c);
    AskPcDo(c);
    assert [Take(g), INC_PC] + [ADDR_PC] == [Take(g), INC_PC, ADDR_PC];
    TakeMore(cs, k, s, h, g, [ADDR_PC], READ, c.(addr := Phys(c.r.mpr, c.r.pc)));
  }

  predicate StartsAbsolute(cs: seq<Cycle>) {
    && |cs| > 3 && cs[0] == C([ADDR_PC], READ) && cs[1] == C([Take(RTA), INC_PC, ADDR_PC], READ)
    && cs[2] == C([Take(RTR(0)), INC_PC, JOIN_TA], IDLE)
  }

  /** A 16-bit operand in TA. */
  lemma AbsoluteCyc(cs: seq<Cycle>, s: Cpu) returns (x: Core)
    requires Ready(s) && StartsAbsolute(cs)
    ensures forall y <- cs[..3] :: Plain(y)
    ensures Fold(cs[..3], Hold(s)) == Held(x, s.mem) && Kept(x, Past2(s))
    ensures x.r.ta == Word(First(s), Second(s)) && Word16(x.r.ta)
  {
    hide Fold, Micros, Do, Phys, Plain, Word;
    FirstCyc(cs, s);
    PeekKept(s);
    var p := Peek(Latched(s), s.mem);
    TakeAsk(cs, 1, s, Held(p, s.mem), RTA);
    var q := Peek(TakeNext(p, RTA), s.mem);
    var c := TakeNext(q, RTR(0));
    Micros1(JOIN_TA.m, c);
    JoinDo(c);
    WordIs(First(s), Second(s));
    x := c.(r := c.r.(ta := Word(c.r.ta, c.r.tr[0])));
    assert [Take(RTR(0)), INC_PC] + [JOIN_TA] == [Take(RTR(0)), INC_PC, JOIN_TA];
    TakeMore(cs, 2, s, Held(q, s.mem), RTR(0), [JOIN_TA], IDLE, x);
  }

  lemma JumpExec(s: Cpu) returns (t: Cpu)
    requires Ready(s)
    ensures Refines(IJump, s, t)
  {
    hide Micros, Compile, EndOps, EndCore, Fetch, Refines, Plain, Phys, Fold, Do, Word;
    var cs := Text(IJump);
    var x := AbsoluteCyc(cs, s);
    Micros1(Move(RPC, Reg(RTA)), x);
    MovePC(x);
    t := WorkEnd(IJump, cs, s, x, [Just(Move(RPC, Reg(RTA)))], x.(r := x.r.(pc := x.r.ta)));
  }

  /** A case that adds the index to TA and asks for the byte there. */
  lemma IndexedCyc(cs: seq<Cycle>, k: nat, s: Cpu, x: Core, inx: Option<Reg>)
    requires k < |cs| && cs[k] == C(IndexOps(RTA, inx, W16) + [ASK_MEM], READ) && (forall y <- cs[..k] :: Plain(y))
    requires Fold(cs[..k], Hold(s)) == Held(x, s.mem) && IsIndex(inx) && Word16(x.r.ta)
    ensures forall y <- cs[..k + 1] :: Plain(y)
    ensures var ta := (x.r.ta + Index(x.r, inx)) % 65536;
      Fold(cs[..k + 1], Hold(s)) == Held(x.(addr := Phys(x.r.mpr, ta), d := Read(s.mem, Phys(x.r.mpr, ta)),
        r := x.r.(ta := ta)), s.mem)
  {
    hide Fold, Micros, Do, Phys, Plain;
    var ix, ta := IndexOps(RTA, inx, W16), (x.r.ta + Index(x.r, inx)) % 65536;
    IndexMicros(x, inx, W16);
    var y := x.(r := x.r.(ta := ta));
    MicrosAppend(ix, [ASK_MEM], x);
    Micros1(ASK_MEM.m, y);
    AskDo(y);
    Onward(cs, k, s, Held(x, s.mem), ix + [ASK_MEM], READ, y.(addr := Phys(y.r.mpr, ta)));
  }

  lemma NextTA(c: Core)
    ensures Do(Sum(RTA, Reg(RTA), Num(1), W16), c) == c.(r := c.r.(ta := (c.r.ta + 1) % 65536))
    ensures Do(Join(RPC, Reg(RPC), Reg(RTR(0))), c) == c.(r := c.r.(pc := Word(c.r.pc, c.r.tr[0])))
  {
    hide Word;
  }

  /** PC from the two bytes at TA. */
  lemma PointerToPC(l: Core, mem: map<int, byte>)
    requires Fits(Byte, l.d)
    ensures var ta := (l.r.ta + 1) % 65536;
      Micros([Take(RPC), Just(Sum(RTA, Reg(RTA), Num(1), W16)), ASK_MEM], l)
      == l.(addr := Phys(l.r.mpr, ta), r := l.r.(pc := l.d, ta := ta))
    ensures Micros([Take(RTR(0)), Just(Join(RPC, Reg(RPC), Reg(RTR(0))))], l)
         == l.(r := l.r.(tr := l.r.tr[0 := l.d], pc := Word(l.r.pc, l.d)))
  {
    hide Micros, Do, Phys, Word;
    Micros3(Take(RPC).m, Sum(RTA, Reg(RTA), Num(1), W16), ASK_MEM.m, l);
    Micros2(Take(RTR(0)).m, Join(RPC, Reg(RPC), Reg(RTR(0))), l);
    TakeDo(l, RPC);
    TakeDo(l, RTR(0));
    var c := l.(r := l.r.(pc := l.d));
    NextTA(c);
    AskDo(c.(r := c.r.(ta := (c.r.ta + 1) % 65536)));
    NextTA(l.(r := l.r.(tr := l.r.tr[0 := l.d])));
  }

  /** The target of an indirect jump, one byte in PC and the other in D. */
  lemma JumpPointer(cs: seq<Cycle>, s: Cpu, inx: Option<Reg>) returns (w: Core)
    requires Ready(s) && IsIndex(inx) && cs == JumpIndirectCode(inx)
    ensures forall y <- cs[..5] :: Plain(y)
    ensures Fold(cs[..5], Hold(s)) == Held(w, s.mem) && Kept(w, AtPC(s.core, w.r.pc)) && Fits(Byte, w.d)
    ensures Word(w.r.pc, w.d) == WordAt(s.core.r.mpr, s.mem, (Word(First(s), Second(s)) + Index(s.core.r, inx)) % 65536)
  {
    hide Micros, EndOps, Plain, Phys, Fold, Do, Word;
    var x := AbsoluteCyc(cs, s);
    IndexedCyc(cs, 3, s, x, inx);
    var ta := (x.r.ta + Index(x.r, inx)) % 65536;
    var lo := Read(s.mem, Phys(x.r.mpr, ta));
    var y := x.(addr := Phys(x.r.mpr, ta), d := lo, r := x.r.(ta := ta));
    PointerToPC(y, s.mem);
    var z := y.(addr := Phys(x.r.mpr, Inc16(ta)), r := y.r.(pc := lo, ta := Inc16(ta)));
    Onward(cs, 4, s, Held(y, s.mem), [Take(RPC), Just(Sum(RTA, Reg(RTA), Num(1), W16)), ASK_MEM], READ, z);
    w := z.(d := Read(s.mem, z.addr));
  }

  lemma JumpIndirectExec(inx: Option<Reg>, s: Cpu) returns (t: Cpu)
    requires Ready(s) && IsIndex(inx)
    ensures Refines(IJumpIndirect(inx), s, t)
  {
    hide Micros, EndOps, Fetch, Refines, Plain, Phys, Fold, Do, Word, WordAt;
    var cs := JumpIndirectCode(inx);
    var w := JumpPointer(cs, s, inx);
    PointerToPC(w, s.mem);
    var ops := [Take(RTR(0)), Just(Join(RPC, Reg(RPC), Reg(RTR(0))))];
    Onward(cs, 5, s, Held(w, s.mem), ops, IDLE, Micros(ops, w));
    t := PlainEnd(IJumpIndirect(inx), cs, s, Micros(ops, w));
  }

  // ----- Stores -----

  lemma OutDo(c: Core, v: Src)
    requires IsStored(v)
    ensures Do(Out(v), c) == c.(d := Eval(c, v)) && Eval(c.(d := Eval(c, v)), v) == Eval(c, v)
  {
  }

  /** A, X, Y and 0 are not scratch. */
  lemma StoredKept(c: Core, e: Core, v: Src)
    requires Kept(c, e) && IsStored(v)
    ensures Eval(c, v) == Eval(e, v)
  {
  }

  /** The last two cases of a store: `y` is the core with the address on the pins. */
  lemma WriteEnd(m: Mode, v: Src, cs: seq<Cycle>, s: Cpu, w: Core, ops: seq<Op>, y: Core) returns (t: Cpu)
    requires Ready(s) && Proper(IWrite(m, v)) && cs == Text(IWrite(m, v)) && |cs| >= 2 && |cs| == FormCycles(m)
    requires (forall op <- ops :: op.Just?) && cs[|cs| - 2] == C(ops + [Just(Out(v))], WRITE)
    requires cs[|cs| - 1] == Ending([], true, true) && (forall x <- cs[..|cs| - 2] :: Plain(x))
    requires Fold(cs[..|cs| - 2], Hold(s)) == Held(w, s.mem) && Micros(ops, w) == y
    requires var a := Address(m, s.core, s.mem); Kept(y, AtPC(s.core, a.r.pc)) && y.addr == a.addr
    ensures Refines(IWrite(m, v), s, t)
  {
    hide Micros, EndOps, Fetch, Refines, Plain, Fold, Do, Text, Address, Eval, Proper;
    var n := |cs| - 2;
    var a := Address(m, s.core, s.mem);
    assert IsStored(v) by { ProperStore(m, v); }
    MicrosAppend(ops, [Just(Out(v))], w);
    Micros1(Out(v), y);
    OutDo(y, v);
    StoredKept(y, AtPC(s.core, a.r.pc), v);
    StoredPC(s.core, a.r.pc, v);
    var x := y.(d := Eval(y, v));
    Onward(cs, n, s, Held(w, s.mem), ops + [Just(Out(v))], WRITE, x);
    assert cs[..n + 1] == cs[..|cs| - 1];
    t := PlainEnd(IWrite(m, v), cs, s, x);
  }

  lemma ProperStore(m: Mode, v: Src)
    requires Proper(IWrite(m, v))
    ensures IsStored(v)
  {
  }

  lemma StoredPC(c: Core, pc: int, v: Src)
    requires IsStored(v)
    ensures Eval(AtPC(c, pc), v) == Eval(c, v)
  {
  }

  lemma WriteAbsoluteExec(v: Src, inx: Option<Reg>, s: Cpu) returns (t: Cpu)
    requires Ready(s) && IsStored(v) && IsIndex(inx)
    ensures Refines(IWrite(Abso(inx), v), s, t)
  {
    hide Micros, EndOps, Fetch, Refines, Plain, Phys, Fold, Do, Word;
    var m, ix := Abso(inx), IndexOps(RTA, inx, W16);
    var cs := WriteCode(m, v);
    var x := AbsoluteCyc(cs, s);
    IndexMicros(x, inx, W16);
    var y := x.(r := x.r.(ta := (x.r.ta + Index(x.r, inx)) % 65536));
    MicrosAppend(ix, [ASK_MEM], x);
    Micros1(ASK_MEM.m, y);
    AskDo(y);
    assert ix + [ASK_MEM, Just(Out(v))] == ix + [ASK_MEM] + [Just(Out(v))];
    t := WriteEnd(m, v, cs, s, x, ix + [ASK_MEM], y.(addr := Phys(y.r.mpr, y.r.ta)));
  }

  /** A zero-page operand, indexed, in TA. */
  lemma ZeroCyc(cs: seq<Cycle>, s: Cpu, inx: Option<Reg>) returns (x: Core)
    requires Ready(s) && |cs| > 2 && cs[0] == C([ADDR_PC], READ) && IsIndex(inx)
    requires cs[1] == C([Take(RTA), INC_PC] + IndexOps(RTA, inx, W8), IDLE)
    ensures forall y <- cs[..2] :: Plain(y)
    ensures Fold(cs[..2], Hold(s)) == Held(x, s.mem) && Kept(x, Past1(s)) &&
      x.r.ta == (First(s) + Index(s.core.r, inx)) % 256
  {
    hide Fold, Micros, Do, Phys, Plain;
    FirstCyc(cs, s);
    PeekKept(s);
    var p := Peek(Latched(s), s.mem);
    var c := TakeNext(p, RTA);
    IndexMicros(c, inx, W8);
    x := c.(r := c.r.(ta := (c.r.ta + Index(c.r, inx)) % 256));
    TakeMore(cs, 1, s, Held(p, s.mem), RTA, IndexOps(RTA, inx, W8), IDLE, x);
  }

  lemma WriteZeroExec(v: Src, inx: Option<Reg>, s: Cpu) returns (t: Cpu)
    requires Ready(s) && IsStored(v) && IsIndex(inx)
    ensures Refines(IWrite(Zp(inx), v), s, t)
  {
    hide Micros, EndOps, Fetch, Refines, Plain, Phys, ZeroPage, Fold, Do;
    var m := Zp(inx);
    var cs := WriteCode(m, v);
    var x := ZeroCyc(cs, s, inx);
    Micros1(ASK_TA.m, x);
    AskDo(x);
    assert [ASK_TA] + [Just(Out(v))] == [ASK_TA, Just(Out(v))];
    t := WriteEnd(m, v, cs, s, x, [ASK_TA], x.(addr := ZeroPage(x.r.mpr, x.r.ta)));
  }

  /** Both bytes of the pointer at zero-page TA: one in TR[0], one in D. */
  lemma PointerCyc(cs: seq<Cycle>, s: Cpu, k: nat, x: Core, inx: Option<Reg>) returns (y: Core)
    requires k + 1 < |cs| && cs[k] == C(IndexOps(RTA, inx, W8) + [ASK_TA], READ) && IsIndex(inx)
    requires cs[k + 1] == C([Take(RTR(0)), NEXT_TA, ASK_TA], READ) && (forall c <- cs[..k] :: Plain(c))
    requires Fold(cs[..k], Hold(s)) == Held(x, s.mem) && Fits(Byte, x.r.ta)
    ensures forall c <- cs[..k + 2] :: Plain(c)
    ensures Fold(cs[..k + 2], Hold(s)) == Held(y, s.mem) && Kept(y, x)
    ensures var p := (x.r.ta + Index(x.r, inx)) % 256;
      && y.r.tr[0] == Read(s.mem, ZeroPage(x.r.mpr, p)) && y.d == Read(s.mem, ZeroPage(x.r.mpr, (p + 1) % 256))
  {
    hide Fold, Micros, Do, ZeroPage, Plain;
    var ix, p := IndexOps(RTA, inx, W8), (x.r.ta + Index(x.r, inx)) % 256;
    IndexMicros(x, inx, W8);
    var c := x.(r := x.r.(ta := p));
    MicrosAppend(ix, [ASK_TA], x);
    Micros1(ASK_TA.m, c);
    AskDo(c);
    Onward(cs, k, s, Held(x, s.mem), ix + [ASK_TA], READ, c.(addr := ZeroPage(c.r.mpr, p)));
    var l := c.(addr := ZeroPage(c.r.mpr, p), d := Read(s.mem, ZeroPage(c.r.mpr, p)));
    TakeDo(l, RTR(0));
    var e := l.(r := l.r.(tr := l.r.tr[0 := l.d]));
    NextTaDo(e);
    var f := e.(r := e.r.(ta := (p + 1) % 256));
    AskDo(f);
    Micros3(Take(RTR(0)).m, NEXT_TA.m, ASK_TA.m, l);
    Onward(cs, k + 1, s, Held(l, s.mem), [Take(RTR(0)), NEXT_TA, ASK_TA], READ, f.(addr := ZeroPage(f.r.mpr, f.r.ta)));
    y := f.(addr := ZeroPage(f.r.mpr, f.r.ta), d := Read(s.mem, ZeroPage(f.r.mpr, f.r.ta)));
  }

  lemma JoinPointerDo(l: Core)
    requires Fits(Byte, l.d)
    ensures Micros([Take(RTR(1)), JOIN_PTR], l) == l.(r := l.r.(tr := l.r.tr[1 := l.d], ta := Word(l.r.tr[0], l.d)))
    ensures Micros([Take(RTR(1)), JoinTR(0, 1)], l) == l.(r := l.r.(tr := l.r.tr[1 := l.d][0 := Word(l.r.tr[0], l.d)]))
  {
    hide Micros, Do, Word;
    Micros2(Take(RTR(1)).m, JOIN_PTR.m, l);
    Micros2(Take(RTR(1)).m, JoinTR(0, 1).m, l);
    TakeDo(l, RTR(1));
    JoinDo(l.(r := l.r.(tr := l.r.tr[1 := l.d])));
    JoinTRDo(l.(r := l.r.(tr := l.r.tr[1 := l.d])), 0, 1);
  }

  /** What the pointer of (zp) and (zp),Y leads to. */
  lemma IndirectIs(m: Mode, s: Cpu)
    requires Ready(s) && (m.Ind? || m.IndY?)
    ensures var a := Address(m, s.core, s.mem);
      var p := (First(s) + if m.Ind? then Index(s.core.r, m.inx) else 0) % 256;
      var w := Word(Read(s.mem, ZeroPage(s.core.r.mpr, p)), Read(s.mem, ZeroPage(s.core.r.mpr, (p + 1) % 256)));
      a.r.pc == Inc16(s.core.r.pc) && a.addr == Phys(s.core.r.mpr, (w + if m.Ind? then 0 else s.core.r.y) % 65536)
  {
    hide Phys, ZeroPage, Word;
  }

  /** The pointer of a store fetched: one byte in TR[0], the other in D. */
  lemma StorePointer(cs: seq<Cycle>, s: Cpu, inx: Option<Reg>) returns (y: Core)
    requires Ready(s) && IsIndex(inx) && |cs| > 4 && cs[0] == C([ADDR_PC], READ) &&
      cs[1] == C([Take(RTA), INC_PC], IDLE)
    requires cs[2] == C(IndexOps(RTA, inx, W8) + [ASK_TA], READ) && cs[3] == C([Take(RTR(0)), NEXT_TA, ASK_TA], READ)
    ensures forall c <- cs[..4] :: Plain(c)
    ensures Fold(cs[..4], Hold(s)) == Held(y, s.mem) && Kept(y, Past1(s)) && Fits(Byte, y.d) && Fits(Byte, y.r.tr[0])
    ensures var p := (First(s) + Index(s.core.r, inx)) % 256;
      Word(y.r.tr[0], y.d) == Word(Read(s.mem, ZeroPage(s.core.r.mpr, p)),
        Read(s.mem, ZeroPage(s.core.r.mpr, (p + 1) % 256)))
  {
    hide Micros, Plain, Fold, Do, ZeroPage, Phys, Word;
    assert [Take(RTA), INC_PC] + IndexOps(RTA, None, W8) == [Take(RTA), INC_PC];
    var x := ZeroCyc(cs, s, None);
    y := PointerCyc(cs, s, 2, x, inx);
  }

  lemma WriteIndirectExec(v: Src, inx: Option<Reg>, s: Cpu) returns (t: Cpu)
    requires Ready(s) && IsStored(v) && IsIndex(inx)
    ensures Refines(IWrite(Ind(inx), v), s, t)
  {
    hide Micros, EndOps, Fetch, Refines, Plain, Phys, ZeroPage, Fold, Do, Word, Address, Index, Result;
    var m := Ind(inx);
    var cs := WriteCode(m, v);
    IndirectIs(m, s);
    var y := StorePointer(cs, s, inx);
    JoinPointerDo(y);
    WordIs(y.r.tr[0], y.d);
    var z := y.(r := y.r.(tr := y.r.tr[1 := y.d], ta := Word(y.r.tr[0], y.d)));
    Onward(cs, 4, s, Held(y, s.mem), [Take(RTR(1)), JOIN_PTR], IDLE, z);
    Micros1(ASK_MEM.m, z);
    AskDo(z);
    assert [ASK_MEM] + [Just(Out(v))] == [ASK_MEM, Just(Out(v))];
    t := WriteEnd(m, v, cs, s, z, [ASK_MEM], z.(addr := Phys(z.r.mpr, z.r.ta)));
  }

  lemma AddYDo(c: Core)
    ensures Do(Sum(RTA, Reg(RTR(0)), Reg(RY), W16), c) == c.(r := c.r.(ta := (c.r.tr[0] + c.r.y) % 65536))
  {
  }

  lemma WriteIndirectYExec(v: Src, s: Cpu) returns (t: Cpu)
    requires Ready(s) && IsStored(v)
    ensures Refines(IWrite(IndY, v), s, t)
  {
    hide Micros, EndOps, Fetch, Refines, Plain, Phys, ZeroPage, Fold, Do, Word, Address, Result;
    var cs, add := WriteCode(IndY, v), Sum(RTA, Reg(RTR(0)), Reg(RY), W16);
    assert IndexOps(RTA, None, W8) + [ASK_TA] == [ASK_TA];
    IndirectIs(IndY, s);
    var y := StorePointer(cs, s, None);
    JoinPointerDo(y);
    var z := y.(r := y.r.(tr := y.r.tr[1 := y.d][0 := Word(y.r.tr[0], y.d)]));
    Onward(cs, 4, s, Held(y, s.mem), [Take(RTR(1)), JoinTR(0, 1)], IDLE, z);
    AddYDo(z);
    var w := z.(r := z.r.(ta := (z.r.tr[0] + z.r.y) % 65536));
    AskDo(w);
    Micros2(add, ASK_MEM.m, z);
    assert [Just(add), ASK_MEM] + [Just(Out(v))] == [Just(add), ASK_MEM, Just(Out(v))];
    t := WriteEnd(IndY, v, cs, s, z, [Just(add), ASK_MEM], w.(addr := Phys(w.r.mpr, w.r.ta)));
  }
}
