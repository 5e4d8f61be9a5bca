/**
 RESET. The driver's reset keeps the pins as they are, so the RESET microcode may start with RD high
 or low, and even with WR high; and the special opcode it leaves in D survives only if RD is low.
 */
module HucReset {
  import opened BitOps
  import opened HucMachine
  import opened HucMicrocode
  import opened HucCertify
  import opened HucSwitchgen
  import opened HucText
  import opened HucExec
  import opened HucOperands
  import opened HucTMode
  import opened HucCalls
  import opened HucInterrupts
  import opened HucStraight
  import opened HucIsa
  import opened HucRefineBasics

  // ----- What the microcode does -----

  function StackMoved(c: Core): Core {
    c.(addr := if c.r.sp < 0 then 0 else BitOr(c.r.sp, 0x100), r := c.r.(sp := Dec8(c.r.sp)))
  }

  lemma DownCyc(cs: seq<Cycle>, k: nat, s: Cpu, c: Core)
    requires k < |cs| && cs[k] == STACK_DOWN && (forall y <- cs[..k] :: Plain(y)) &&
      Fold(cs[..k], Hold(s)) == Held(c, s.mem)
    ensures forall y <- cs[..k + 1] :: Plain(y)
    ensures Fold(cs[..k + 1], Hold(s)) == Held(StackMoved(c), s.mem)
  {
    hide Fold, Micros, Plain, BitOr;
    Micros2(AddrResetStack, DEC_S.m, c);
    Onward(cs, k, s, Held(c, s.mem), [Just(AddrResetStack), DEC_S], IDLE, StackMoved(c));
  }

  /** The core RESET starts over with, but for PC. */
  function Started(c: Core): Core {
    c.(r := c.r.(sp := 0, mpr := c.r.mpr[7 := 0], mpl := 0, p := c.r.p.(i := true, d := false, t := false)),
       irq := c.irq.(enabled := Lines(true, true, true)), timerOn := false, clockDiv := 12)
  }

  const START_OPS: seq<Op> := [Just(ResetMachine), Just(AddrFixed(0x1FFE)), Just(Move(RS, Num(0)))]

  lemma StartDos(c: Core)
    ensures Do(Move(RS, Num(0)), Do(AddrFixed(0x1FFE), Do(ResetMachine, c)))
         == c.(addr := 0x1FFE, r := c.r.(sp := 0, mpr := c.r.mpr[7 := 0], mpl := 0),
               irq := c.irq.(enabled := Lines(true, true, true)), timerOn := false, clockDiv := 12)
  {
  }

  lemma StartMicros(c: Core)
    ensures Micros(MASK_OPS + START_OPS, c) == Started(c).(addr := 0x1FFE)
  {
    hide Micros, Do;
    MicrosAppend(MASK_OPS, START_OPS, c);
    MaskMicros(c);
    var e := c.(r := c.r.(p := c.r.p.(i := true, d := false, t := false)));
    Micros3(ResetMachine, AddrFixed(0x1FFE), Move(RS, Num(0)), e);
    StartDos(e);
  }

  lemma NextDo(c: Core)
    ensures Do(AddrNext, c) == c.(addr := c.addr + 1)
  {
  }

  /** After k cases, the address is on the bus. */
  ghost predicate BusAt(s: Cpu, k: nat) {
    && k <= |ResetCode()| && (forall y <- ResetCode()[..k] :: Plain(y))
    && OnBus(Fold(ResetCode()[..k], Hold(s)).c)
  }

  predicate LowStack(s: Cpu) {
    OnBus(s.core) && Fits(Byte, s.core.r.sp)
  }

  lemma MovedOnBus(c: Core)
    requires Fits(Byte, c.r.sp)
    ensures OnBus(StackMoved(c)) && Fits(Byte, StackMoved(c).r.sp)
  {
    hide BitOr;
    ResetStackFits(c.r.sp);
  }

  /** Started over, four idle stack cycles later. */
  lemma ResetDown(s: Cpu) returns (c: Core)
    ensures LowStack(s) ==> forall k: nat :: k <= 5 ==> BusAt(s, k)
    ensures forall y <- ResetCode()[..5] :: Plain(y)
    ensures Fold(ResetCode()[..5], Hold(s)) == Held(c, s.mem) &&
      Started(c) == Started(s.core).(d := c.d, addr := c.addr)
  {
    hide Fold, Plain, EndOps, BitOr;
    var cs := ResetCode();
    assert cs[..0] == [];
    FoldNone(Hold(s));
    IdleCyc(cs, 0, s);
    c := Latched(s);
    var c1, c2, c3 := StackMoved(c), StackMoved(StackMoved(c)), StackMoved(StackMoved(StackMoved(c)));
    DownCyc(cs, 1, s, c);
    DownCyc(cs, 2, s, c1);
    DownCyc(cs, 3, s, c2);
    DownCyc(cs, 4, s, c3);
    if LowStack(s) {
      MovedOnBus(c);
      MovedOnBus(c1);
      MovedOnBus(c2);
      MovedOnBus(c3);
      assert BusAt(s, 0) && BusAt(s, 1) && BusAt(s, 2) && BusAt(s, 3) && BusAt(s, 4) && BusAt(s, 5);
    }
    c := StackMoved(c3);
  }

  /** Both bytes of the vector at the fixed address: one in PC, the other in D. */
  lemma ResetVector(s: Cpu) returns (w: Core)
    ensures LowStack(s) ==> forall k: nat :: k <= 8 ==> BusAt(s, k)
    ensures forall y <- ResetCode()[..8] :: Plain(y)
    ensures Fold(ResetCode()[..8], Hold(s)) == Held(w, s.mem) && w.d == Read(s.mem, 0x1FFF)
    ensures w == Started(s.core).(addr := w.addr, d := w.d, r := Started(s.core).r.(pc := Read(s.mem, 0x1FFE)))
  {
    hide Fold, Micros, Do, Plain, EndOps, Started;
    var cs := ResetCode();
    var c := ResetDown(s);
    StartMicros(c);
    var ops := [Just(PutFlag(FI, true)), Just(PutFlag(FD, false)), Just(PutFlag(FT, false)), Just(ResetMachine),
                Just(AddrFixed(0x1FFE)), Just(Move(RS, Num(0)))];
    assert ops == MASK_OPS + START_OPS;
    Onward(cs, 5, s, Held(c, s.mem), ops, READ, Started(c).(addr := 0x1FFE));
    var l := Started(c).(addr := 0x1FFE, d := Read(s.mem, 0x1FFE));
    VectorNext(l);
    Onward(cs, 6, s, Held(l, s.mem), [Take(RPC), Just(AddrNext)], READ, l.(addr := 0x1FFF, r := l.r.(pc := l.d)));
    IdleCyc(cs, 7, s);
    assert LowStack(s) ==> BusAt(s, 6) && BusAt(s, 7) && BusAt(s, 8);
    w := l.(addr := 0x1FFF, d := Read(s.mem, 0x1FFF), r := l.r.(pc := l.d));
  }

  lemma VectorNext(l: Core)
    requires Fits(Byte, l.d) && l.addr == 0x1FFE
    ensures Micros([Take(RPC), Just(AddrNext)], l) == l.(addr := 0x1FFF, r := l.r.(pc := l.d))
  {
    hide Micros, Do;
    Micros2(Take(RPC).m, AddrNext, l);
    TakeDo(l, RPC);
    NextDo(l.(r := l.r.(pc := l.d)));
  }

  lemma StartedIs(s: Cpu, x: Core)
    requires x == Started(s.core).(addr := x.addr, d := x.d, r := Started(s.core).r.(pc := x.r.pc))
    requires x.r.pc == Word(Read(s.mem, 0x1FFE), Read(s.mem, 0x1FFF))
    ensures Kept(x, ResetCore(s)) && x.r.ta == s.core.r.ta && x.r.tr == s.core.r.tr
  {
    hide Word;
  }

  /** The first case drives RD low itself, so it need not have been high. */
  lemma FirstTickAny(cs: seq<Cycle>, s: Cpu)
    requires |cs| > 0 && cs[0] == C([], IDLE) && s.tcu == 0 && !s.wr
    ensures Tick(Compile(cs), s) == RefTick(cs, s) && PinsTracked(cs, RefTick(cs, s)) && RefTick(cs, s).tcu == 1
  {
    var l := Latch(s);
    assert Compile(cs)[0] == [PinRD(false)];
    RunOne(PinRD(false), Go(l));
    RunNone(Go(l));
  }

  /** A run of reference cycles is one of the emitted text, whatever RD was at first. */
  lemma CompletedAny(cs: seq<Cycle>, s: Cpu, n: nat, u: Cpu, t: Cpu)
    requires PinsOK(cs) && |cs| > 1 && cs[0] == C([], IDLE) && s.tcu == 0 && !s.wr && n > 0
    requires Within(cs, s, n, u) && RefTick(cs, u) == t && t.tcu == 0
    ensures Completes(Compile(cs), s, n + 1, t)
    ensures forall k: nat :: 0 < k <= n ==> var w := Ticks(Compile(cs), s, k);
      0 < w.tcu < |cs| && Pins(w.rd, w.wr) == PinsBefore(cs, w.tcu) && w == RefTicks(cs, s, k)
  {
    hide RefTick, Tick, PinsOK, Compile;
    FirstTickAny(cs, s);
    var v := RefTick(cs, s);
    RefTicksAdd(cs, s, n, 1);
    assert RefTicks(cs, u, 1) == RefTicks(cs, RefTick(cs, u), 0);
    forall k: nat | k < n
      ensures RefTicks(cs, v, k).tcu < |cs|
    {
      assert RefTicks(cs, s, k + 1) == RefTicks(cs, v, k);
    }
    forall k: nat | 0 < k <= n + 1
      ensures Ticks(Compile(cs), s, k) == RefTicks(cs, s, k) && PinsTracked(cs, RefTicks(cs, s, k))
    {
      PinEncodingSound(cs, v, k - 1);
      assert Ticks(Compile(cs), s, k) == Ticks(Compile(cs), Tick(Compile(cs), s), k - 1);
    }
  }

  lemma ResetPinsOK()
    ensures PinsOK(ResetCode()) && forall c <- ResetCode()[..8] :: Plain(c)
  {
    hide EndOps;
    var cs := ResetCode();
    forall k | 0 <= k < |cs|
      ensures PinsFit(cs, k)
    {
      if k == 8 {
        EndingFits(cs, k, [Just(Join(RPC, Reg(RPC), Data))], true, true);
      }
    }
  }

  /** The RESET microcode as emitted, from any pins with WR low. */
  lemma ResetRuns(s: Cpu) returns (t: Cpu, x: Core)
    requires s.tcu == 0 && !s.wr
    ensures Completes(Compile(ResetCode()), s, 9, t) && t == Cpu(EndCore(true, true, Fetch(x)), 0, true, false, s.mem)
    ensures Kept(x, ResetCore(s)) && Fits(Byte, x.d) && x.r.ta == s.core.r.ta && x.r.tr == s.core.r.tr
    ensures LowStack(s) ==> Clean(Compile(ResetCode()), s, 9)
  {
    hide Fold, Micros, Plain, EndOps, Fetch, EndCore, Word, Started, PinsOK, RefTick, Within, Compile, ResetCore,
      Completes;
    var cs, ops := ResetCode(), [Just(Join(RPC, Reg(RPC), Data))];
    ResetPinsOK();
    var w := ResetVector(s);
    LastJoin(w);
    x := w.(r := w.r.(pc := Word(w.r.pc, w.d)));
    StartedIs(s, x);
    forall k | 0 <= k < 8
      ensures Plain(cs[k])
    {
      assert cs[k] == cs[..8][k];
    }
    WithinNone(cs, s);
    var u := StraightFrom(cs, s, 0, s, 8);
    assert cs[0..8] == cs[..8];
    EndTick(cs, u, ops, true, true);
    t := RefTick(cs, u);
    CompletedAny(cs, s, 8, u, t);
    if LowStack(s) {
      forall k: nat | k <= 8
        ensures OnBus(Ticks(Compile(cs), s, k).core)
      {
        var v := StraightFrom(cs, s, 0, s, k);
        assert cs[0..k] == cs[..k] && BusAt(s, k);
        WithinTicks(cs, s, k, v);
        HeldAddr(v);
      }
      CleanPins(cs, s);
    }
  }

  lemma WithinTicks(cs: seq<Cycle>, s: Cpu, n: nat, v: Cpu)
    requires Within(cs, s, n, v)
    ensures v == RefTicks(cs, s, n)
  {
  }

  lemma HeldAddr(v: Cpu)
    ensures Hold(v).c.addr == v.core.addr
  {
  }

  lemma CleanPins(cs: seq<Cycle>, s: Cpu)
    requires cs == ResetCode() && s.tcu == 0 && !s.wr
    requires forall k: nat :: 0 < k <= 8 ==> var w := Ticks(Compile(cs), s, k);
      0 < w.tcu < |cs| && Pins(w.rd, w.wr) == PinsBefore(cs, w.tcu)
    requires forall k: nat :: k <= 8 ==> OnBus(Ticks(Compile(cs), s, k).core)
    ensures Clean(Compile(cs), s, 9)
  {
    hide Ticks, EndOps, Compile;
    assert forall i :: 0 <= i < 9 ==> !(cs[i].pins.rd && cs[i].pins.wr);
    TicksNone(Compile(cs), s);
    CompiledLength(cs);
  }

  lemma TicksNone(cases: seq<seq<Op>>, s: Cpu)
    ensures Ticks(cases, s, 0) == s
  {
  }

  lemma CompiledLength(cs: seq<Cycle>)
    ensures |Compile(cs)| == |cs|
  {
  }

  lemma ResetExec(s: Cpu) returns (t: Cpu)
    requires Ready(s)
    ensures Refines(IReset, s, t)
  {
    hide EndCore, Fetch, Completes, Compile, ResetCode, ResetCore, Refines, Kept;
    var x;
    t, x := ResetRuns(s);
    KeptEnds(IReset, s, t, x, 9);
  }

  // ----- With WR high -----

  /** Statements and RD writes leave WR and TCU alone. */
  lemma {:induction false} QuietOps(ops: seq<Op>, s: Cpu)
    requires forall op <- ops :: op.Just? || op.PinRD?
    ensures var f := RunOps(ops, Go(s)); f.Go? && f.s.wr == s.wr && f.s.tcu == s.tcu
  {
    hide Do;
    if |ops| > 0 {
      QuietOps(ops[..|ops| - 1], s);
    }
  }

  lemma ResetText(k: nat)
    requires k < 8
    ensures |Compile(ResetCode())| == 9 && forall op <- Compile(ResetCode())[k] :: op.Just? || op.PinRD?
    ensures k == 5 ==> var ops := Compile(ResetCode())[k]; ops != [] && ops[|ops| - 1] == PinRD(true)
  {
    hide EndOps;
  }

  lemma {:induction false} WriteStays(s: Cpu, k: nat)
    requires s.tcu == 0 && k <= 6
    ensures var u := Ticks(Compile(ResetCode()), s, k); u.wr == s.wr && u.tcu == k && (k == 6 ==> u.rd)
  {
    hide ResetCode, Compile;
    var cases := Compile(ResetCode());
    if k > 0 {
      WriteStays(s, k - 1);
      TicksLast(cases, s, k - 1);
      var u := Ticks(cases, s, k - 1);
      ResetText(k - 1);
      QuietOps(cases[k - 1], Latch(u));
      if k == 6 {
        QuietOps(cases[5][..|cases[5]| - 1], Latch(u));
      }
    }
  }

  lemma {:induction false} TicksLast(cases: seq<seq<Op>>, s: Cpu, n: nat)
    ensures Ticks(cases, s, n + 1) == Tick(cases, Ticks(cases, s, n))
    decreases n
  {
    hide Tick;
    if n == 0 {
      assert Ticks(cases, s, 1) == Ticks(cases, Tick(cases, s), 0);
    } else {
      TicksLast(cases, Tick(cases, s), n - 1);
    }
  }

  /** RESET keeps its pins sound if and only if WR was low: it never lowers WR, and asks for a read. */
  lemma ResetSoundIff(s: Cpu)
    requires s.tcu == 0 && LowStack(s)
    ensures Clean(Compile(ResetCode()), s, 9) <==> !s.wr
  {
    hide ResetCode, Compile, Ticks;
    if s.wr {
      WriteStays(s, 6);
    } else {
      var t, x := ResetRuns(s);
    }
  }

  // ----- From the reset to the first instruction -----

  /** core::reset: TCU, S, T, MPR[7] and the clock; 0x100 in D; RD, WR and do_IRQ stay. */
  function AfterReset(s: Cpu): Cpu {
    var r := s.core.r;
    s.(tcu := 0, core := s.core.(d := 0x100, clockDiv := 12,
      r := r.(sp := 0, mpr := r.mpr[7 := 0], p := r.p.(t := false))))
  }

  /** The table index the driver picks in its first cycle: D as that cycle finds it. */
  function FirstDecode(s: Cpu): Dispatch {
    if s.core.irq.pending then Decode(s) else Run(Latched(s).d, s)
  }

  /**
   A reset is followed by the RESET entry if and only if RD was low and no interrupt pending: with RD
   high the first cycle reads over the special opcode.
   */
  lemma ResetDispatched(s: Cpu)
    ensures var r := AfterReset(s);
      FirstDecode(r) == Run(0x100, r) <==> !s.rd && !s.core.irq.pending
  {
  }

  /** A reset in the middle of a fetch: the opcode on order is dispatched, not RESET. */
  lemma ResetMissed(s: Cpu)
    requires s.rd && !s.core.irq.pending
    ensures FirstDecode(AfterReset(s)) == Run(Read(s.mem, s.core.addr), AfterReset(s)) &&
      Read(s.mem, s.core.addr) != 0x100
  {
  }

  /** From power-on, or any reset with RD and WR low and nothing pending, to a boundary runs can start from. */
  lemma ResetReachesBoundary(s: Cpu) returns (t: Cpu)
    requires !s.rd && !s.wr && !s.core.irq.pending && SaneRegs(AT_BOUNDARY, s.core.r) && !s.core.fault
    ensures var r := AfterReset(s);
      FirstDecode(r) == Run(0x100, r) && Completes(Compile(ResetCode()), r, 9, t)
    ensures AtBoundary(false, t) && !t.core.r.p.t && t.mem == s.mem
    ensures t.core.r.pc == Inc16(Word(Read(s.mem, 0x1FFE), Read(s.mem, 0x1FFF))) && t.core.r.p.i && !t.core.r.p.d &&
      t.core.r.sp == 0
  {
    hide Completes, Compile, ResetCode, Word, Phys;
    WordIs(Read(s.mem, 0x1FFE), Read(s.mem, 0x1FFF));
    var x;
    t, x := ResetRuns(AfterReset(s));
    AddressesFit(x.r.mpr, x.r.pc);
  }

  /** The same from any boundary, as a table entry. */
  lemma ResetCompletes(s: Cpu) returns (t: Cpu)
    requires AtBoundary(false, s)
    ensures Completes(Compile(ResetCode()), s, 9, t) && Clean(Compile(ResetCode()), s, 9)
    ensures AtBoundary(false, t) && !t.core.r.p.t
  {
    hide Completes, Compile, ResetCode, Word, Phys;
    WordIs(Read(s.mem, 0x1FFE), Read(s.mem, 0x1FFF));
    var x;
    t, x := ResetRuns(s);
    AddressesFit(x.r.mpr, x.r.pc);
  }
}
