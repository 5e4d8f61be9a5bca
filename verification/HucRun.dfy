/** Whole runs: instruction after instruction from the generated table, with interrupts in between. */
module HucRun {
  import opened Common
  import opened HucMachine
  import opened HucMicrocode
  import opened HucCertify
  import opened HucSwitchgen
  import opened HucText
  import opened HucTable
  import opened HucTMode
  import opened HucBlockMove
  import opened HucCalls
  import opened HucInterrupts
  import opened HucBus
  import opened HucReset

  type Table = seq<seq<seq<seq<Op>>>>

  /** An instruction in a run: the request lines as it finds them, the table index run, its cycles. */
  datatype Event = Event(lines: Lines, opcode: int, cycles: nat)

  /** Devices set the request lines. */
  function Raise(s: Cpu, lines: Lines): Cpu {
    s.(core := s.core.(irq := s.core.irq.(raised := lines)))
  }

  /**
   The driver's choice at a boundary, and the state with the request lines that the instruction is going
   to find. (HucLines has the lines change in every cycle.)
   */
  function Begin(s: Cpu, lines: Lines): Dispatch {
    var d := Decode(s);
    if d.Run? then Run(d.opcode, Raise(d.s, lines)) else AssertFails
  }

  /** The opcode on order, or the interrupt served: timer before IRQ1 before IRQ2. */
  function Served(q: Irq, opcode: int): int {
    if !q.pending then opcode
    else if q.enabled.tiq && q.polled.tiq then TIQ
    else if q.enabled.irq1 && q.polled.irq1 then IRQ1
    else IRQ2
  }

  /** What the driver chooses, and that it changes the interrupt latches only. */
  lemma BeginIs(s: Cpu, lines: Lines)
    requires Decode(s).Run? || !s.core.irq.pending || AnyLine(s.core.irq.enabled, s.core.irq.polled)
    ensures var q := s.core.irq;
      Begin(s, lines) == Run(Served(q, Read(s.mem, s.core.addr)),
        s.(core := s.core.(irq := q.(pending := false, raised := lines))))
  {
  }

  /** The entry the driver selects: by T, then by opcode or interrupt. */
  function EntryFor(table: Table, d: Dispatch): seq<seq<Op>>
    requires d.Run? && |table| == 2 && |table[0]| == |table[1]| == ENTRIES && 0 <= d.opcode < ENTRIES
  {
    table[if d.s.core.r.p.t then 1 else 0][d.opcode]
  }

  ghost predicate Runs(table: Table, s: Cpu, es: seq<Event>, t: Cpu)
    requires IsTable(table)
    decreases |es|
  {
    if |es| == 0 then s == t
    else
      var d := Begin(s, es[0].lines);
      && d.Run? && d.opcode == es[0].opcode && 0 <= d.opcode < ENTRIES
      && var u := Ticks(EntryFor(table, d), d.s, es[0].cycles);
      Completes(EntryFor(table, d), d.s, es[0].cycles, u) && Runs(table, u, es[1..], t)
  }

  /** Every BSR of the run has a 16-bit target. */
  ghost predicate BranchesStay(table: Table, s: Cpu, es: seq<Event>)
    requires IsTable(table)
    decreases |es|
  {
    if |es| == 0 then true
    else
      var d := Begin(s, es[0].lines);
      d.Run? && 0 <= d.opcode < ENTRIES ==>
        && (d.opcode == 0x44 && Word16(d.s.core.r.pc) ==> Word16(BranchTarget(d.s)))
        && BranchesStay(table, Ticks(EntryFor(table, d), d.s, es[0].cycles), es[1..])
  }

  const LONGEST := 17 + 6 * 65536

  lemma CompletesOnce(cases: seq<seq<Op>>, s: Cpu, n: nat, t: Cpu, m: nat, u: Cpu)
    requires Completes(cases, s, n, t) && Completes(cases, s, m, u)
    ensures n == m && t == u
  {
    hide Ticks;
    assert Ticks(cases, s, n).tcu == 0 && Ticks(cases, s, m).tcu == 0;
  }

  lemma BlockPins(k: MoveKind, i: nat)
    requires i < 23
    ensures |BlockCode(k)| == 23 && !(BlockCode(k)[i].pins.rd && BlockCode(k)[i].pins.wr)
  {
    hide EndOps, MoveOps;
  }

  lemma BlockClean(k: MoveKind, s: Cpu)
    requires Ready(s) && OnBus(s.core)
    ensures Clean(Compile(BlockCode(k)), s, 17 + 6 * Length(s))
  {
    BlockOnBus(k, s, 17 + 6 * Length(s));
    hide BlockCode, RefTick, Length, Compile, Ended, Finished, Copy, FirstByte, PinsOK, SaneRegs;
    var cs, n := BlockCode(k), Length(s);
    BlockPinsOK(k);
    BlockPins(k, 0);
    var v, t := BlockRuns(k, s);
    forall i: nat | i < 17 + 6 * n
      ensures var u := Ticks(Compile(cs), s, i); 0 <= u.tcu < |Compile(cs)| && !(u.rd && u.wr)
    {
      assert RefTicks(cs, s, 0) == s;
      PinEncodingSound(cs, s, i);
      var u := RefTicks(cs, s, i);
      assert 0 <= u.tcu < 23;
      if u.tcu > 0 {
        BlockPins(k, u.tcu - 1);
      }
      CompileLength(cs);
    }
  }

  lemma CompileLength(cs: seq<Cycle>)
    ensures |Compile(cs)| == |cs|
  {
  }

  lemma BoundaryReady(wraps: bool, s: Cpu)
    requires AtBoundary(wraps, s)
    ensures Ready(s) && OnBus(s.core)
  {
    hide SaneRegs;
  }

  lemma BlockEnds(k: MoveKind, s: Cpu) returns (t: Cpu)
    requires AtBoundary(false, s)
    ensures Completes(Compile(BlockCode(k)), s, 17 + 6 * Length(s), t) && Length(s) <= 65536
    ensures AtBoundary(false, t) && !t.core.r.p.t
  {
    hide Compile, BlockCode, Completes, Length, FirstByte, Copy, Ended, Finished;
    BoundaryReady(false, s);
    LoopBytes(s);
    t := BlockExec(k, s);
    FinishedSane(s, t.mem);
    EndedSane(Finished(s, t.mem), t);
  }

  lemma FinishedSane(s: Cpu, mem: map<int, byte>)
    requires AtBoundary(false, s)
    ensures SaneRegs(AT_BOUNDARY, Finished(s, mem).r) && !Finished(s, mem).fault
  {
    hide StackAddr, Phys;
  }

  lemma EndedSane(e: Core, t: Cpu)
    requires SaneRegs(AT_BOUNDARY, e.r) && !e.fault && SameShell(t.core, Ended(e)) && t.core.addr == Ended(e).addr
    requires t.tcu == 0 && t.rd && !t.wr && Fits(Byte, t.core.d) && forall i :: 0 <= i < 8 ==>
      Fits(Full, t.core.r.tr[i])
    ensures AtBoundary(false, t) && !t.core.r.p.t
  {
    hide Phys;
    AddressesFit(e.r.mpr, e.r.pc);
  }

  lemma BranchEnds(s: Cpu) returns (t: Cpu)
    requires AtBoundary(false, s) && Word16(BranchTarget(s))
    ensures Completes(Compile(BranchSubroutineCode()), s, 8, t) && AtBoundary(false, t) && !t.core.r.p.t
  {
    hide Compile, Completes, BranchMem, Phys, BranchTarget;
    BoundaryReady(false, s);
    t := BranchExec(s);
    BranchSane(BranchCore(s), t);
  }

  lemma BranchSane(e: Core, t: Cpu)
    requires SaneRegs(AT_BOUNDARY, e.r) && !e.fault && Kept(t.core, Ended(e)) && t.core.addr == Ended(e).addr
    requires t.tcu == 0 && t.rd && !t.wr && ScratchFits(t.core)
    ensures AtBoundary(false, t) && !t.core.r.p.t
  {
    hide Phys;
    AddressesFit(e.r.mpr, e.r.pc);
  }

  lemma InstrShape(opcode: int, tbit: bool)
    ensures IsMove(opcode) <==> InstrOf(opcode, tbit).IMove?
    ensures InstrOf(opcode, tbit).IMove? ==> Text(InstrOf(opcode, tbit)) == BlockCode(InstrOf(opcode, tbit).move)
    ensures opcode == 0x44 ==> Text(InstrOf(opcode, tbit)) == BranchSubroutineCode()
    ensures opcode == 0x100 ==> !InstrOf(opcode, tbit).IMove? && Text(InstrOf(opcode, tbit)) == ResetCode()
    ensures |ResetCode()| == 9
  {
    hide Text, Control, Registers, ModeOf;
    SameMoves(opcode / 0x20, opcode % 0x20 / 4, tbit && opcode > 0xE0);
    SameMoves(opcode / 0x20, opcode % 0x20 / 4, false);
    TextOfMove(InstrOf(opcode, tbit));
  }

  lemma TextOfMove(i: Instr)
    ensures i.IMove? ==> Text(i) == BlockCode(i.move)
    ensures i == IBranchSub ==> Text(i) == BranchSubroutineCode()
    ensures i == IReset ==> Text(i) == ResetCode()
  {
    hide BlockCode, BranchSubroutineCode, ResetCode;
  }

  lemma SameMoves(high: int, column: int, quiet: bool)
    ensures !Control(high, column, quiet).IMove? && !Registers(high, column, quiet).IMove?
    ensures Control(2, 1, quiet) == IBranchSub && ModeOf(0x04) == None
  {
  }

  /** Every table entry, started at a boundary, ends at one, and only SET, PLP and RTI may leave T set. */
  lemma EntryCompletes(opcode: int, tbit: bool, r: seq<seq<Op>>, s: Cpu) returns (n: nat, t: Cpu)
    requires Entry(opcode, tbit, r) && 0 <= opcode < ENTRIES && AtBoundary(false, s)
    requires opcode == 0x44 ==> Word16(BranchTarget(s))
    ensures Completes(r, s, n, t) && Clean(r, s, n)
    ensures n <= if IsMove(opcode) then LONGEST else |r|
    ensures AtBoundary(false, t) && (t.core.r.p.t ==> !ClearsT(opcode))
  {
    hide Compile, Completes, Clean, AtBoundary, Certified, BranchTarget, Length, BlockCode, ResetCode, Text,
      Boundary, SaneRegs,
      InstrOf,
      IsMove;
    InstrShape(opcode, tbit);
    BoundaryReady(false, s);
    if InstrOf(opcode, tbit).IMove? {
      var k := InstrOf(opcode, tbit).move;
      BlockClean(k, s);
      t := BlockEnds(k, s);
      n := 17 + 6 * Length(s);
    } else if opcode == 0x100 {
      t := ResetCompletes(s);
      n := 9;
      CompileLength(ResetCode());
    } else {
      var cs, entry :| r == Compile(cs) && Certified(cs, entry, MayWrap(opcode), Polls(opcode), ClearsT(opcode));
      CompileLength(cs);
      if opcode == 0x44 {
        Loosen(s);
        n, t := CertifiedCompletes(cs, entry, true, true, true, s);
        var t' := BranchEnds(s);
        CompletesOnce(r, s, n, t, 8, t');
      } else {
        n, t := CertifiedCompletes(cs, entry, false, Polls(opcode), ClearsT(opcode), s);
      }
    }
  }

  lemma Loosen(s: Cpu)
    requires AtBoundary(false, s)
    ensures AtBoundary(true, s)
  {
    hide SaneRegs, Phys;
  }

  // ----- Runs -----

  lemma RaiseKeeps(s: Cpu, lines: Lines)
    requires AtBoundary(false, s)
    ensures AtBoundary(false, Raise(s, lines))
  {
    hide SaneRegs, Phys;
  }

  lemma BeginServes(s: Cpu, lines: Lines)
    requires AtBoundary(false, s)
    ensures var d := Begin(s, lines);
      d.Run? && AtBoundary(false, d.s) && 0 <= d.opcode < ENTRIES && d.opcode != 0x100
  {
    hide Decode, AtBoundary;
    DecodeServes(false, s);
    RaiseKeeps(Decode(s).s, lines);
  }

  /** One instruction, or one interrupt entry, from any boundary: it can be run, and ends at a boundary. */
  lemma RunStep(table: Table, s: Cpu, lines: Lines) returns (n: nat, t: Cpu)
    requires IsTable(table) && AtBoundary(false, s)
    requires var d := Begin(s, lines);
      d.Run? && d.opcode == 0x44 && Word16(d.s.core.r.pc) ==> Word16(BranchTarget(d.s))
    ensures var d := Begin(s, lines);
      && d.Run? && 0 <= d.opcode < ENTRIES
      && Completes(EntryFor(table, d), d.s, n, t) && Clean(EntryFor(table, d), d.s, n)
      && AtBoundary(false, t) && (t.core.r.p.t ==> !ClearsT(d.opcode))
      && n <= if IsMove(d.opcode) then LONGEST else |EntryFor(table, d)|
  {
    hide Completes, Clean, Entry, AtBoundary, BranchTarget, Raise, InstrOf;
    BeginServes(s, lines);
    var d := Begin(s, lines);
    BoundaryReady(false, d.s);
    n, t := EntryCompletes(d.opcode, d.s.core.r.p.t, EntryFor(table, d), d.s);
  }

  /**
   Safety over whole runs of the generated table, whatever the devices request in between: no MPR
   index is ever out of range and no case missing, each instruction ends at a boundary with Addr
   mapped from PC and PC one further, a pending interrupt always has a line to serve, and T set at a
   boundary means the last instruction was SET, PLP or RTI.
   */
  lemma {:induction false} RunsStaySane(table: Table, s: Cpu, es: seq<Event>, t: Cpu)
    requires IsTable(table) && AtBoundary(false, s) && Runs(table, s, es, t) && BranchesStay(table, s, es)
    ensures AtBoundary(false, t) && !t.core.fault && Boundary(t)
    ensures es != [] && t.core.r.p.t ==> es[|es| - 1].opcode in {0xF4, 0x28, 0x40}
    decreases |es|
  {
    hide Completes, Clean, Entry, BranchTarget, EntryFor, Begin, SaneRegs;
    if |es| > 0 {
      var d := Begin(s, es[0].lines);
      var n, u := RunStep(table, s, es[0].lines);
      CompletesOnce(EntryFor(table, d), d.s, n, u, es[0].cycles, Ticks(EntryFor(table, d), d.s, es[0].cycles));
      RunsStaySane(table, u, es[1..], t);
      if |es| == 1 {
        assert t == u;
      }
    }
  }

  /** And a run never gets stuck: for any requests, there is a run of that many instructions. */
  lemma {:induction false} RunsExist(table: Table, s: Cpu, requests: seq<Lines>) returns (es: seq<Event>, t: Cpu,
      stays: bool)
    requires IsTable(table) && AtBoundary(false, s)
    ensures Runs(table, s, es, t) && |es| <= |requests|
    ensures forall i :: 0 <= i < |es| ==> es[i].lines == requests[i]
    ensures stays ==> |es| == |requests|
    ensures !stays ==> |es| < |requests| && AtBoundary(false, t) && WouldLeave(t, requests[|es|])
    decreases |requests|
  {
    hide Completes, Clean, Entry, BranchTarget, EntryFor, Begin, AtBoundary;
    if |requests| == 0 {
      es, t, stays := [], s, true;
    } else if WouldLeave(s, requests[0]) {
      es, t, stays := [], s, false;
    } else {
      var n, u := RunStep(table, s, requests[0]);
      var rest;
      rest, t, stays := RunsExist(table, u, requests[1..]);
      var d := Begin(s, requests[0]);
      es := [Event(requests[0], d.opcode, n)] + rest;
      assert es[1..] == rest;
      TicksOf(EntryFor(table, d), d.s, n, u);
    }
  }

  lemma TicksOf(cases: seq<seq<Op>>, s: Cpu, n: nat, t: Cpu)
    requires Completes(cases, s, n, t)
    ensures Ticks(cases, s, n) == t
  {
  }

  /** The next instruction is a BSR whose target is not a 16-bit address. */
  predicate WouldLeave(s: Cpu, lines: Lines) {
    var d := Begin(s, lines);
    d.Run? && d.opcode == 0x44 && Word16(d.s.core.r.pc) && !Word16(BranchTarget(d.s))
  }

  // ----- T mode through the table -----

  /**
   Wherever a run stands with T set before ORA, AND, EOR or ADC in any of the nine forms: the entry
   the driver takes (T = 1) simulates the entry of the same opcode for T = 0.
   */
  lemma TableTMode(table: Table, s: Cpu) returns (n: nat, t0: Cpu, t1: Cpu)
    requires IsTable(table) && AtBoundary(false, s) && s.core.r.p.t && !s.core.irq.pending
    requires HasTForm(Read(s.mem, s.core.addr))
    ensures var d, d0 := Decode(s), Decode(Untagged(s));
      && d.Run? && d0.Run? && d.opcode == d0.opcode == Read(s.mem, s.core.addr)
      && Completes(EntryFor(table, d0), d0.s, n, t0) && Completes(EntryFor(table, d), d.s, n + 3, t1)
    ensures View(t1.core) == View(t0.core).(a := s.core.r.a) && t0.mem == s.mem
    ensures 0 <= t0.core.r.a < 256 && t1.mem == s.mem[ZeroPage(s.core.r.mpr, s.core.r.x) := t0.core.r.a]
  {
    hide Completes, ReadCode, MemCode, Compile, View, IsCertified, ZeroPage, AtBoundary, BlockCode, CallCode,
      ReturnCode, BranchSubroutineCode, ReturnFromInterruptCode, InterruptCode, Boundary;
    BoundaryReady(false, s);
    var op: int := Read(s.mem, s.core.addr);
    ModeIsMode(op % 0x20);
    assert Entry(op, true, table[1][op]) && Entry(op, false, table[0][op]);
    n, t0, t1 := TModeSimulates(ModeOf(op % 0x20).value, TAlu(op), s);
  }

  lemma ModeIsMode(low: int)
    requires ModeOf(low).Some?
    ensures IsMode(ModeOf(low).value)
  {
  }
}
