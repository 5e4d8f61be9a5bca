/** Interrupt entry and return. */
module HucInterrupts {
  import opened HucMachine
  import opened HucMicrocode
  import opened HucCertify
  import opened HucSwitchgen
  import opened HucText
  import opened HucExec
  import opened HucOperands
  import opened HucTMode
  import opened HucBlockMove
  import opened HucCopies
  import opened HucCalls

  // ----- Entry -----

  function SavedStatus(p: Flags): byte {
    Pack(p.(b := false))
  }

  function EntryMem(s: Cpu): map<int, byte>
  {
    var r := s.core.r;
    var pc := Dec16(r.pc);
    s.mem[Slot1(r) := AsByte(pc / 256)][Slot2(r) := AsByte(pc % 256)][Slot3(r) := SavedStatus(r.p)]
  }

  function EntryCore(vector: int, s: Cpu): Core
    requires Word16(vector)
  {
    var r := s.core.r;
    s.core.(r := r.(pc := WordAt(r.mpr, EntryMem(s), vector), sp := Dec8(Dec8(Dec8(r.sp))),
                    p := r.p.(i := true, d := false, t := false)))
  }

  lemma EntryPinsOK(vector: int)
    ensures PinsOK(InterruptCode(vector))
  {
    hide EndOps;
    var cs := InterruptCode(vector);
    forall k | 0 <= k < |cs|
      ensures PinsFit(cs, k)
    {
      if k == 7 {
        EndingFits(cs, k, [Just(Join(RPC, Reg(RPC), Data))], true, true);
      }
    }
  }

  lemma BackDo(c: Core)
    ensures Do(Sum(RPC, Reg(RPC), Num(-1), W16), c) == c.(r := c.r.(pc := Dec16(c.r.pc)))
  {
  }

  lemma StatusIs(c: Core)
    ensures Eval(c, Status(false, true)) == SavedStatus(c.r.p)
  {
    hide Pack;
  }

  /** Cases 1 to 5: two dummy reads, three pushes. */
  lemma EntryPushes(vector: int, s: Cpu) returns (u: Cpu)
    requires Ready(s)
    ensures Within(InterruptCode(vector), s, 5, u) && u == Cpu(u.core, 5, false, true, EntryMem(s))
    ensures Kept(u.core, Below(Below(Below(AtPC(s.core, Dec16(s.core.r.pc)))))) && Fits(Byte, u.core.d)
    ensures u.core.r.tr == s.core.r.tr
  {
    hide Phys, StackAddr, RefTick, Micros, Within, EndOps, Do, Eval, Dec16, Pack;
    var cs, e := InterruptCode(vector), AtPC(s.core, Dec16(s.core.r.pc));
    WithinNone(cs, s);
    MicrosNone(Latched(s));
    assert [] + [ADDR_PC] == [ADDR_PC];
    AskPcTick(cs, s, [], Latched(s));
    WithinMore(cs, s, 0, s);
    u := RefTick(cs, s);
    MicrosNone(Latched(u));
    AskPcTick(cs, u, [], Latched(u));
    WithinMore(cs, s, 1, u);
    u := RefTick(cs, u);
    BackDo(Latched(u));
    BackIsWord(s.core.r.pc);
    HalvesOfPC(Do(Sum(RPC, Reg(RPC), Num(-1), W16), Latched(u)).(addr := StackAddr(e.r.mpr, e.r.sp)));
    u := PushAfter(cs, s, 2, u, Sum(RPC, Reg(RPC), Num(-1), W16), Hi(RPC), AsByte(e.r.pc / 256));
    HalvesOfPC(Latched(u).(addr := StackAddr(e.r.mpr, Below(e).r.sp)));
    u := PushMore(cs, s, 3, u, Below(e), Lo(RPC), AsByte(e.r.pc % 256));
    StatusIs(Latched(u).(addr := StackAddr(e.r.mpr, Below(Below(e)).r.sp)));
    u := PushMore(cs, s, 4, u, Below(Below(e)), Status(false, true), SavedStatus(s.core.r.p));
  }

  lemma BackIsWord(pc: int)
    ensures Word16(Dec16(pc))
  {
  }

  const MASK_OPS: seq<Op> := [Just(PutFlag(FI, true)), Just(PutFlag(FD, false)), Just(PutFlag(FT, false))]

  lemma MaskMicros(c: Core)
    ensures Micros(MASK_OPS, c) == c.(r := c.r.(p := c.r.p.(i := true, d := false, t := false)))
  {
    hide Do;
    var c1 := c.(r := c.r.(p := c.r.p.(i := true)));
    var c2 := c1.(r := c1.r.(p := c1.r.p.(d := false)));
    FlagDo(c, FI, true);
    FlagDo(c1, FD, false);
    FlagDo(c2, FT, false);
    Micros3(PutFlag(FI, true), PutFlag(FD, false), PutFlag(FT, false), c);
  }

  lemma FlagDo(c: Core, f: FlagName, on: bool)
    ensures Do(PutFlag(f, on), c) == c.(r := c.r.(p := SetFlag(c.r.p, f, on)))
  {
  }

  lemma VectorDo(c: Core, vector: int)
    requires 0 <= vector < 65535
    ensures Do(Move(RTA, Num(vector)), c) == c.(r := c.r.(ta := vector))
    ensures Do(Sum(RTA, Reg(RTA), Num(1), W16), c) == c.(r := c.r.(ta := (c.r.ta + 1) % 65536))
  {
  }

  lemma FirstAsk(l: Core, vector: int)
    requires 0 <= vector < 65535
    ensures Micros(MASK_OPS + [Just(Move(RTA, Num(vector))), ASK_MEM], l)
         == l.(addr := Phys(l.r.mpr, vector), r := l.r.(ta := vector, p := l.r.p.(i := true, d := false, t := false)))
  {
    hide Do, Phys, Micros;
    MicrosAppend(MASK_OPS, [Just(Move(RTA, Num(vector))), ASK_MEM], l);
    MaskMicros(l);
    var c := Micros(MASK_OPS, l);
    Micros2(Move(RTA, Num(vector)), ASK_MEM.m, c);
    VectorDo(c, vector);
    AskDo(c.(r := c.r.(ta := vector)));
  }

  lemma SecondAsk(l: Core, vector: int)
    requires 0 <= vector < 65535 && Fits(Byte, l.d) && l.r.ta == vector
    ensures Micros([Take(RPC), Just(Sum(RTA, Reg(RTA), Num(1), W16)), ASK_MEM], l)
         == l.(addr := Phys(l.r.mpr, vector + 1), r := l.r.(ta := vector + 1, pc := l.d))
  {
    hide Do, Phys, Micros;
    Micros3(Take(RPC).m, Sum(RTA, Reg(RTA), Num(1), W16), ASK_MEM.m, l);
    TakeDo(l, RPC);
    var c := l.(r := l.r.(pc := l.d));
    VectorDo(c, vector);
    AskDo(c.(r := c.r.(ta := vector + 1)));
  }

  lemma LastJoin(l: Core)
    ensures Micros([Just(Join(RPC, Reg(RPC), Data))], l) == l.(r := l.r.(pc := Word(l.r.pc, l.d)))
  {
    hide Do;
    Micros1(Join(RPC, Reg(RPC), Data), l);
    LastJoinDo(l);
  }

  lemma LastJoinDo(l: Core)
    ensures Do(Join(RPC, Reg(RPC), Data), l) == l.(r := l.r.(pc := Word(l.r.pc, l.d)))
  {
    hide Word;
  }

  /** Interrupt entry as emitted: eight cycles; PC - 1 and P are pushed, I is set, D and T cleared. */
  lemma EntryExec(vector: int, s: Cpu) returns (t: Cpu)
    requires Ready(s) && 256 <= vector < 65535
    ensures Completes(Compile(InterruptCode(vector)), s, 8, t) && EndsAs(t, EntryCore(vector, s), EntryMem(s))
  {
    hide Phys, StackAddr, RefTick, Micros, Within, EndOps, Do, Word, Compile, PinsOK, Completes, Fetch, EntryMem, Ended;
    var cs, e := InterruptCode(vector), s.core;
    EntryPinsOK(vector);
    var u := EntryPushes(vector, s);
    FirstAsk(u.core, vector);
    var ops := MASK_OPS + [Just(Move(RTA, Num(vector))), ASK_MEM];
    assert ops == [Just(PutFlag(FI, true)), Just(PutFlag(FD, false)), Just(PutFlag(FT, false)),
      Just(Move(RTA, Num(vector))), ASK_MEM];
    StraightTick(cs, u, ops, READ, Micros(ops, u.core));
    WithinMore(cs, s, 5, u);
    u := RefTick(cs, u);
    SecondAsk(Latched(u), vector);
    var ops2 := [Take(RPC), Just(Sum(RTA, Reg(RTA), Num(1), W16)), ASK_MEM];
    StraightTick(cs, u, ops2, READ, Micros(ops2, Latched(u)));
    WithinMore(cs, s, 6, u);
    u := RefTick(cs, u);
    var l := Latched(u);
    LastJoin(l);
    EndTick(cs, u, [Just(Join(RPC, Reg(RPC), Data))], true, true);
    t := RefTick(cs, u);
    Completed(cs, s, 7, u, t);
    var c := l.(r := l.r.(pc := Word(l.r.pc, l.d)));
    EndedIs(c);
    KeptEnded(c, EntryCore(vector, s));
    EndedScratch(c);
  }

  // ----- Return -----

  /** What RTI restores: P but for bit 4, PC without the 1 that RTS adds, S. */
  function Restored(s: Cpu): Core {
    var r := s.core.r;
    var sp1, sp2, sp3 := Inc8(r.sp), Inc8(Inc8(r.sp)), Inc8(Inc8(Inc8(r.sp)));
    s.core.(r := r.(sp := sp3,
                    p := Unpack(Read(s.mem, StackAddr(r.mpr, sp1))).(b := false),
                    pc := Word(Read(s.mem, StackAddr(r.mpr, sp2)), Read(s.mem, StackAddr(r.mpr, sp3)))))
  }

  lemma RestorePinsOK()
    ensures PinsOK(ReturnFromInterruptCode())
  {
    hide EndOps;
    var cs := ReturnFromInterruptCode();
    forall k | 0 <= k < |cs|
      ensures PinsFit(cs, k)
    {
      if k == 6 {
        EndingFits(cs, k, [], true, false);
      }
    }
  }

  lemma StatusMicros(l: Core)
    requires Fits(Byte, l.d)
    ensures Micros([Just(LoadStatus), Just(DropBrk)], l) == l.(r := l.r.(p := Unpack(l.d).(b := false)))
  {
    hide Do, Unpack;
    Micros2(LoadStatus, DropBrk, l);
    LoadDo(l);
    LoadDo(l.(r := l.r.(p := Unpack(l.d))));
  }

  lemma LoadDo(l: Core)
    requires Fits(Byte, l.d)
    ensures Do(LoadStatus, l) == l.(r := l.r.(p := Unpack(l.d)))
    ensures Do(DropBrk, l) == l.(r := l.r.(p := l.r.p.(b := false)))
  {
    hide Unpack;
  }

  /** RTI up to its last case. */
  lemma RestoreBody(s: Cpu) returns (u: Cpu)
    requires Ready(s)
    ensures Within(ReturnFromInterruptCode(), s, 6, u) && u == Cpu(u.core, 6, false, false, s.mem)
    ensures Kept(u.core, Restored(s)) && ScratchFits(u.core)
  {
    hide Phys, StackAddr, RefTick, Micros, Within, EndOps, Word, Inc8, Unpack;
    var cs := ReturnFromInterruptCode();
    u := FirstPull(cs, s);
    StatusMicros(Latched(u));
    u := PullMore(cs, s, 3, u, [Just(LoadStatus), Just(DropBrk)],
      Micros([Just(LoadStatus), Just(DropBrk)], Latched(u)));
    TakeMicros(Latched(u));
    u := PullMore(cs, s, 4, u, [Take(RPC)], Micros([Take(RPC)], Latched(u)));
    TakeMicros(Latched(u));
    StraightTick(cs, u, [Take(RTA), JOIN_PC], IDLE, Micros([Take(RTA), JOIN_PC], Latched(u)));
    WithinMore(cs, s, 5, u);
    u := RefTick(cs, u);
  }

  /** The end of an instruction that keeps T. */
  function EndedKeepingT(c: Core): Core {
    EndCore(true, false, Fetch(c))
  }

  lemma KeptEndedT(c: Core, e: Core)
    requires Kept(c, e)
    ensures Kept(EndedKeepingT(c), EndedKeepingT(e)) && EndedKeepingT(c).addr == EndedKeepingT(e).addr
    ensures ScratchFits(c) ==> ScratchFits(EndedKeepingT(c))
  {
    hide Phys;
  }

  /** RTI as emitted: seven cycles. */
  lemma RestoreExec(s: Cpu) returns (t: Cpu)
    requires Ready(s)
    ensures Completes(Compile(ReturnFromInterruptCode()), s, 7, t)
    ensures t == Cpu(t.core, 0, true, false, s.mem) && ScratchFits(t.core)
    ensures Kept(t.core, EndedKeepingT(Restored(s))) && t.core.addr == EndedKeepingT(Restored(s)).addr
  {
    hide Restored, Within, RefTick, Fetch, Compile, PinsOK, Completes, EndOps;
    RestorePinsOK();
    var u := RestoreBody(s);
    EndTick(ReturnFromInterruptCode(), u, [], true, false);
    MicrosNone(Latched(u));
    t := RefTick(ReturnFromInterruptCode(), u);
    Completed(ReturnFromInterruptCode(), s, 6, u, t);
    KeptEndedT(Latched(u), Restored(s));
  }

  // ----- Transparency -----

  /** Entry leaves the machine at a boundary again, three bytes deeper. */
  lemma EntryReady(vector: int, s: Cpu) returns (s1: Cpu)
    requires Ready(s) && 256 <= vector < 65535
    ensures s1 == Ticks(Compile(InterruptCode(vector)), s, 8) && Completes(Compile(InterruptCode(vector)), s, 8, s1)
    ensures Ready(s1) && s1.mem == EntryMem(s) && s1.core.r.mpr == s.core.r.mpr &&
      s1.core.r.sp == Dec8(Dec8(Dec8(s.core.r.sp)))
    ensures s1.core.r.a == s.core.r.a && s1.core.r.x == s.core.r.x && s1.core.r.y == s.core.r.y
    ensures s1.core.r.p == s.core.r.p.(i := true, d := false, t := false)
  {
    hide Phys, StackAddr, Compile, Pack, WordAt, Completes, EntryMem;
    s1 := EntryExec(vector, s);
    CompletesTicks(Compile(InterruptCode(vector)), s, 8, s1);
  }

  lemma CompletesTicks(cases: seq<seq<Op>>, s: Cpu, n: nat, t: Cpu)
    requires Completes(cases, s, n, t)
    ensures t == Ticks(cases, s, n)
  {
  }

  /** A handler as its caller sees it: A, X, Y and the mapping kept, S balanced, three bytes left alone. */
  predicate Handled(s: Cpu, s1: Cpu, s2: Cpu) {
    var r := s.core.r;
    && s2.core.r.a == s1.core.r.a && s2.core.r.x == s1.core.r.x && s2.core.r.y == s1.core.r.y
    && s2.core.r.sp == s1.core.r.sp && s2.core.r.mpr == s1.core.r.mpr
    && Read(s2.mem, Slot1(r)) == Read(s1.mem, Slot1(r)) && Read(s2.mem, Slot2(r)) == Read(s1.mem, Slot2(r))
    && Read(s2.mem, Slot3(r)) == Read(s1.mem, Slot3(r))
  }

  lemma EntryBytes(s: Cpu)
    requires SaneRegs(AT_BOUNDARY, s.core.r)
    ensures var r, m, pc := s.core.r, EntryMem(s), Dec16(s.core.r.pc);
      && Read(m, Slot1(r)) == AsByte(pc / 256) && Read(m, Slot2(r)) == AsByte(pc % 256) &&
        Read(m, Slot3(r)) == SavedStatus(r.p)
  {
    hide StackAddr, Pack, Slot1, Slot2, Slot3;
    SlotsApart(s.core.r);
  }

  /** The three bytes an entry pushed are what RTI pulls. */
  lemma PulledBack(s: Cpu, s2: Cpu)
    requires SaneRegs(AT_BOUNDARY, s.core.r) && s2.core.r.sp == Dec8(Dec8(Dec8(s.core.r.sp))) &&
      s2.core.r.mpr == s.core.r.mpr
    requires var r := s.core.r; var m := EntryMem(s);
      Read(s2.mem, Slot1(r)) == Read(m, Slot1(r)) && Read(s2.mem, Slot2(r)) == Read(m, Slot2(r)) &&
        Read(s2.mem, Slot3(r)) == Read(m, Slot3(r))
    ensures Restored(s2).r.pc == Dec16(s.core.r.pc) && Restored(s2).r.sp == s.core.r.sp
    ensures Restored(s2).r.p == s.core.r.p.(b := false)
  {
    hide StackAddr, Pack, Unpack, Word, EntryMem, Read, Inc8, Dec8;
    var pc := Dec16(s.core.r.pc);
    EntryBytes(s);
    StackPointers(s.core.r.sp);
    UnpackPack(s.core.r.p.(b := false));
    WordIs(pc % 256, pc / 256);
  }

  /**
   Interrupts are transparent: entry, any handler that keeps A, X, Y, the mapping, S and the three
   bytes pushed, and RTI, come back to the same boundary with the same PC, Addr, S and flags, T
   included; bit 4 of P comes back clear.
   */
  lemma InterruptTransparent(vector: int, s: Cpu, s2: Cpu) returns (s1: Cpu, s3: Cpu)
    requires Ready(s) && Boundary(s) && 256 <= vector < 65535 && Ready(s2)
    requires Handled(s, Ticks(Compile(InterruptCode(vector)), s, 8), s2)
    ensures Completes(Compile(InterruptCode(vector)), s, 8, s1) &&
      Completes(Compile(ReturnFromInterruptCode()), s2, 7, s3)
    ensures Ready(s3) && Boundary(s3) && s3.mem == s2.mem
    ensures s3.core.addr == s.core.addr && s3.core.r.pc == s.core.r.pc && s3.core.r.sp == s.core.r.sp
    ensures s3.core.r.a == s.core.r.a && s3.core.r.x == s.core.r.x && s3.core.r.y == s.core.r.y
    ensures s3.core.r.p == s.core.r.p.(b := false) && s3.core.r.mpr == s.core.r.mpr
    ensures s2.core.fault == s3.core.fault
  {
    hide Phys, StackAddr, Compile, Pack, Unpack, WordAt, EntryMem, Completes, Slot1, Slot2, Slot3, Word;
    s1 := EntryReady(vector, s);
    PulledBack(s, s2);
    s3 := RestoreExec(s2);
    RestoredKeeps(s2);
    EndedTFetches(Restored(s2));
    Backwards(s.core.r.pc);
  }

  lemma RestoredKeeps(s: Cpu)
    ensures var c := Restored(s);
      c == s.core.(r := s.core.r.(sp := c.r.sp, p := c.r.p, pc := c.r.pc))
  {
    hide Word, Unpack, StackAddr;
  }

  lemma Backwards(pc: int)
    requires Word16(pc)
    ensures Inc16(Dec16(pc)) == pc && Word16(Dec16(pc))
  {
  }

  lemma EndedTFetches(c: Core)
    requires Word16(c.r.pc)
    ensures var e := EndedKeepingT(c);
      && e == c.(addr := Phys(c.r.mpr, c.r.pc), r := c.r.(pc := Inc16(c.r.pc)), irq := e.irq)
      && (e.irq.pending ==> AnyLine(e.irq.enabled, e.irq.polled))
  {
    hide Phys;
  }

  // ----- Which entry -----

  const TIQ := 0x103
  const IRQ1 := 0x102
  const IRQ2 := 0x101

  datatype Dispatch = Run(opcode: int, s: Cpu) | AssertFails

  /** The table index the driver picks at a boundary, and the state with the request taken. */
  function Decode(s: Cpu): Dispatch {
    var q := s.core.irq;
    if !q.pending then Run(Read(s.mem, s.core.addr), s)
    else if q.enabled.tiq && q.polled.tiq then
      Run(TIQ, s.(core := s.core.(irq := q.(pending := false, raised := q.raised.(tiq := false)))))
    else if q.enabled.irq1 && q.polled.irq1 then Run(IRQ1, s.(core := s.core.(irq := q.(pending := false))))
    else if q.enabled.irq2 && q.polled.irq2 then Run(IRQ2, s.(core := s.core.(irq := q.(pending := false))))
    else AssertFails
  }

  /** The driver's assertion does not fail at a boundary, and the timer goes before IRQ1, that before IRQ2. */
  lemma DecodeServes(wraps: bool, s: Cpu)
    requires AtBoundary(wraps, s)
    ensures var d := Decode(s); var q := s.core.irq;
      && d.Run? && AtBoundary(wraps, d.s) && d.s.mem == s.mem && d.s.core == s.core.(irq := d.s.core.irq)
      && (d.opcode < 0x100 <==> !q.pending) && 0 <= d.opcode < 0x104 && d.opcode != 0x100
      && (q.pending ==>
          && !d.s.core.irq.pending
          && (d.opcode == TIQ <==> q.enabled.tiq && q.polled.tiq)
          && (d.opcode == IRQ2 ==> q.enabled.irq2 && q.polled.irq2 && !(q.enabled.irq1 && q.polled.irq1)))
  {
    hide Phys;
  }
}
