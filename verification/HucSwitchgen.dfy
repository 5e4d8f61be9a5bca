/**
 The generator object. Its fields are those of huc6280_switchgen; `done` and `cur` are its output
 text, split into closed cases and the open one. Ghost fields record what was asked for (`g`) and
 the size certificate of it (`entry`, `ab`).
 */
module HucSwitchgen {
  import opened Common
  import opened HucMachine
  import opened HucMicrocode
  import opened HucCertify

  /** Requested so far: closed cycles, statements and jump of the open case, pins last requested in it. */
  datatype Gen = Gen(cycles: seq<Cycle>, pre: seq<Op>, jump: Jump, want: Pins)

  /** Whether a certificate is kept (code with a backward jump has none) and an unmasked PC allowed. */
  datatype Aim = Aim(certify: bool, wraps: bool)

  const FRESH := Gen([], [], Straight, IDLE)
  const FRESH_SIZES := AT_BOUNDARY.(d := Byte)

  // ----- What requests add up to -----

  const ADDR_PC: Op := Just(AddrMapped(Reg(RPC)))
  const INC_PC: Op := Just(Sum(RPC, Reg(RPC), Num(1), W16))
  const INC_S: Op := Just(Sum(RS, Reg(RS), Num(1), W8))
  const DEC_S: Op := Just(Sum(RS, Reg(RS), Num(-1), W8))

  function Take(r: Reg): Op {
    Just(Move(r, Data))
  }

  function TakeOps(dest: Option<Reg>): seq<Op> {
    if dest.Some? then [Take(dest.value)] else []
  }

  function PushOps(v: Src): seq<Op> {
    [Just(AddrStack), Just(Out(v)), DEC_S]
  }

  const PULL_OPS: seq<Op> := [INC_S, Just(AddrStack)]

  function Write(g: Gen, ops: seq<Op>): Gen {
    g.(pre := g.pre + ops)
  }

  function Ask(g: Gen, ops: seq<Op>, pins: Pins): Gen {
    g.(pre := g.pre + ops, want := pins)
  }

  function Close(g: Gen): Gen {
    Gen(g.cycles + [Cycle(g.pre, g.jump, g.want, [])], [], Straight, IDLE)
  }

  /** A read cycle at `addr`, and the statements that follow it. */
  function Load(g: Gen, addr: Micro, ops: seq<Op>): Gen {
    Write(Close(Ask(g, [Just(addr)], READ)), ops)
  }

  function Fetched(g: Gen, dest: Option<Reg>): Gen {
    Write(Load(g, AddrMapped(Reg(RPC)), TakeOps(dest)), [INC_PC])
  }

  /** The cycles of the whole instruction; the fetch has a case of its own unless one is open for it. */
  function Finish(g: Gen, hasFooter: bool, poll: bool, clearT: bool): seq<Cycle> {
    var e := Ask(if hasFooter then g else Close(g), FETCH, READ);
    e.cycles + [Cycle(e.pre, Straight, READ, EndOps(poll, clearT))]
  }

  function OldPins(g: Gen): Pins {
    PinsBefore(g.cycles, |g.cycles|)
  }

  /** The open case directly follows a case that may skip it. */
  predicate AfterSkip(g: Gen) {
    g.cycles != [] && g.cycles[|g.cycles| - 1].jump.Skip?
  }

  /** Statements may be added to the open case. */
  predicate IsOpen(g: Gen) {
    !AfterSkip(g) && g.jump == Straight
  }

  predicate GenOK(g: Gen, entry: seq<Abs>, ab: Abs, aim: Aim) {
    && !(g.want.rd && g.want.wr)
    && |entry| == |g.cycles| + 1
    && (forall k :: 0 <= k < |g.cycles| ==> g.cycles[k].post == [])
    && (g.jump.Skip? ==> g.want == IDLE)
    && (AfterSkip(g) ==> g.pre == [] && g.jump == Straight && g.want == IDLE)
    && (aim.certify ==>
        && PrefixOK(g.cycles, entry, aim.wraps)
        && !g.jump.Loop?
        && AbsOps(g.pre, Some(LatchAbs(entry[|g.cycles|], OldPins(g))), OldPins(g).wr, aim.wraps) == Some(ab))
  }

  lemma LineOK(g: Gen, op: Op, entry: seq<Abs>, ab: Abs, ab': Abs, aim: Aim)
    requires GenOK(g, entry, ab, aim) && IsOpen(g)
    requires aim.certify ==> AbsOp(op, ab, OldPins(g).wr, aim.wraps) == Some(ab')
    ensures GenOK(Write(g, [op]), entry, ab', aim) && IsOpen(Write(g, [op]))
  {
    hide PrefixOK, AbsOp;
    assert Write(g, [op]).pre[..|g.pre|] == g.pre;
  }

  lemma PrefixExtends(cs: seq<Cycle>, entry: seq<Abs>, wraps: bool, c: Cycle, ab: Abs)
    requires PrefixOK(cs, entry, wraps)
    requires AbsOps(c.pre, Some(LatchAbs(entry[|cs|], PinsBefore(cs, |cs|))), PinsBefore(cs, |cs|).wr, wraps) ==
      Some(ab)
    requires !(c.pins.rd && c.pins.wr) && !c.jump.Loop? && (c.jump.Skip? ==> c.pins == IDLE)
    requires cs != [] && cs[|cs| - 1].jump.Skip? ==> IsIdle(c)
    ensures PrefixOK(cs + [c], entry + [ab], wraps)
  {
    hide AbsOps, LatchAbs;
    var cs', entry' := cs + [c], entry + [ab];
    forall k | 0 <= k < |cs'|
      ensures CaseOK(cs', entry', k, wraps)
    {
      assert PinsBefore(cs', k) == PinsBefore(cs, k);
      if k < |cs| {
        assert CaseOK(cs, entry, k, wraps);
      }
    }
  }

  lemma CloseOK(g: Gen, entry: seq<Abs>, ab: Abs, aim: Aim)
    requires GenOK(g, entry, ab, aim)
    ensures GenOK(Close(g), entry + [ab], LatchAbs(ab, g.want), aim) && (!g.jump.Skip? ==> IsOpen(Close(g)))
    ensures OldPins(Close(g)) == g.want
  {
    var c := Cycle(g.pre, g.jump, g.want, []);
    if aim.certify {
      PrefixExtends(g.cycles, entry, aim.wraps, c, ab);
    }
  }

  /** The output so far is the encoding of the requests so far. */
  predicate Emitted(done: seq<seq<Op>>, cur: seq<Op>, before: Pins, want: Pins, g: Gen) {
    && done == Compile(g.cycles)
    && cur == g.pre + JumpOps(g.jump)
    && before == OldPins(g)
    && want == g.want
  }

  lemma CloseEmitted(done: seq<seq<Op>>, cur: seq<Op>, before: Pins, want: Pins, g: Gen)
    requires Emitted(done, cur, before, want, g)
    ensures Emitted(done + [cur + Delta(before, want)], [], want, IDLE, Close(g))
  {
    hide Compile, Delta;
    var c := Cycle(g.pre, g.jump, g.want, []);
    CompileAppend(g.cycles, c);
    assert Emit(before, c) == c.pre + JumpOps(c.jump) + Delta(before, c.pins);
  }

  lemma EmittedWant(done: seq<seq<Op>>, cur: seq<Op>, before: Pins, want: Pins, g: Gen)
    requires Emitted(done, cur, before, want, g)
    ensures want == g.want && |Close(g).cycles| == |g.cycles| + 1 && Close(g).want == IDLE
  {
  }

  predicate PcFine(ab: Abs, aim: Aim) {
    !ab.pc.Full? || aim.wraps
  }

  /** After a read D is a byte, and so is the register that takes it. */
  function ByteAt(ab: Abs, dest: Option<Reg>): Abs {
    var ab1 := ab.(d := Byte);
    match dest
    case None => ab1
    case Some(g) =>
      (match g
       case RPC => ab1.(pc := Byte)
       case RTA => ab1.(ta := Byte)
       case RTR(i) => ab1.(tr := ab1.tr[i := Byte])
       case _ => ab1)
  }

  lemma LatchTakes(latch: Micro, ab: Abs, wraps: bool)
    requires latch == LoadStatus || (latch.Move? && latch.v == Data)
    ensures AbsDo(latch, ab.(d := Byte), wraps)
         == Some(ByteAt(ab, if latch.Move? then Some(latch.dst) else None))
    ensures AbsDo(INC_S.m, ab, wraps) == Some(ab) && AbsDo(AddrStack, ab, wraps) == Some(ab)
  {
  }

  lemma FinishCertified(e: Gen, entry: seq<Abs>, ab: Abs, aim: Aim, poll: bool, clearT: bool)
    requires GenOK(e, entry, ab, aim) && aim.certify && IsOpen(e)
    requires |e.pre| >= 2 && e.pre[|e.pre| - 2..] == FETCH
    ensures Certified(e.cycles + [Cycle(e.pre, Straight, READ, EndOps(poll, clearT))], entry + [ab], aim.wraps, poll,
      clearT)
  {
    hide AbsOps, AbsDo, EndOps, PrefixOK;
    PrefixExtends(e.cycles, entry, aim.wraps, Cycle(e.pre, Straight, READ, EndOps(poll, clearT)), ab);
  }

  ghost predicate IsCertified(r: seq<seq<Op>>, wraps: bool, poll: bool, clearT: bool) {
    exists cs, entry :: r == Compile(cs) && Certified(cs, entry, wraps, poll, clearT)
  }

  lemma EndText(before: Pins, pre: seq<Op>, poll: bool, clearT: bool)
    ensures Emit(before, Cycle(pre, Straight, READ, EndOps(poll, clearT)))
         == (var b := pre + JumpOps(Straight) + Delta(before, READ);
             var p := if poll then b + [Just(PollIrqs)] else b;
             var t := if clearT then p + [Just(PutFlag(FT, false))] else p;
             t + [ClearTCU])
  {
  }

  lemma HasCertificate(r: seq<seq<Op>>, cs: seq<Cycle>, entry: seq<Abs>, wraps: bool, poll: bool, clearT: bool)
    requires r == Compile(cs) && Certified(cs, entry, wraps, poll, clearT)
    ensures IsCertified(r, wraps, poll, clearT)
  {
  }

  class SwitchGen {
    var isMem: bool
    var inCase: bool
    var lastCase: nat
    var hasFooter: bool
    var noTAtEnd: bool
    var overrideIRQ: bool
    var oldRd: bool
    var oldWr: bool
    var newRd: bool
    var newWr: bool
    var done: seq<seq<Op>>
    var cur: seq<Op>
    ghost var g: Gen
    ghost var entry: seq<Abs>
    ghost var ab: Abs
    ghost const aim: Aim

    ghost predicate Valid()
      reads `g, `entry, `ab, `done, `cur, `inCase, `lastCase, `oldRd, `oldWr, `newRd, `newWr
    {
      && inCase && lastCase == |g.cycles| + 1
      && Emitted(done, cur, Pins(oldRd, oldWr), Pins(newRd, newWr), g)
      && GenOK(g, entry, ab, aim)
    }

    ghost predicate Ready()
      reads `g, `entry, `ab, `done, `cur, `inCase, `lastCase, `oldRd, `oldWr, `newRd, `newWr
    {
      Valid() && IsOpen(g)
    }

    ghost predicate Fresh()
      reads this
    {
      Ready() && g == FRESH && ab == FRESH_SIZES && !hasFooter && !noTAtEnd && !overrideIRQ
    }

    /** Pins requested in the open case, and pins of the case before it. */
    ghost predicate Levels(want: Pins, before: Pins)
      reads `g
    {
      g.want == want && OldPins(g) == before
    }

    constructor (ghost aim: Aim)
      ensures Fresh() && !isMem && this.aim == aim
    {
      isMem := false;
      lastCase := 1;
      inCase := true;
      hasFooter, noTAtEnd, overrideIRQ := false, false, false;
      oldRd, oldWr := true, false;
      newRd, newWr := false, false;
      done, cur := [], [];
      g, entry, ab := FRESH, [AT_BOUNDARY], FRESH_SIZES;
      this.aim := aim;
      new;
      assert done == Compile(g.cycles);
    }

    /** Counting the address up has no certificate. */
    method Addl(m: Micro)
      requires Ready() && if m.AddrNext? then !aim.certify else AbsDo(m, ab, aim.wraps).Some?
      modifies this
      ensures unchanged(`isMem, `hasFooter, `noTAtEnd, `overrideIRQ)
      ensures Ready() && g == Write(old(g), [Just(m)])
      ensures ab == if m.AddrNext? then old(ab) else AbsDo(m, old(ab), aim.wraps).value
      ensures Levels(old(g).want, old(OldPins(g)))
    {
      hide GenOK, Compile, AbsDo;
      ghost var ab' := if m.AddrNext? then ab else AbsDo(m, ab, aim.wraps).value;
      LineOK(g, Just(m), entry, ab, ab', aim);
      cur := cur + [Just(m)];
      g, ab := Write(g, [Just(m)]), ab';
    }

    method BrEndIf(c: Cond)
      requires Ready() && !OldPins(g).wr && PcFine(ab, aim)
      modifies this
      ensures unchanged(`isMem, `hasFooter, `noTAtEnd, `overrideIRQ)
      ensures Ready() && g == Write(old(g), [BrEnd(c)]) && ab == old(ab)
      ensures Levels(old(g).want, old(OldPins(g)))
    {
      hide GenOK, Compile;
      LineOK(g, BrEnd(c), entry, ab, ab, aim);
      cur := cur + [BrEnd(c)];
      g := Write(g, [BrEnd(c)]);
    }

    /** if (c) core.regs.TCU++ */
    method SkipNextIf(c: Cond)
      requires Ready() && g.want == IDLE
      modifies this
      ensures unchanged(`isMem, `hasFooter, `noTAtEnd, `overrideIRQ)
      ensures Valid() && g == old(g).(jump := Skip(c)) && ab == old(ab)
    {
      hide PrefixOK, Compile, AbsOps;
      cur := cur + [SkipIf(c)];
      g := g.(jump := Skip(c));
    }

    /** if (core.regs.TR[2]) core.regs.TCU -= 6 */
    method LoopBackSix()
      requires Ready() && !aim.certify
      modifies this
      ensures unchanged(`isMem, `hasFooter, `noTAtEnd, `overrideIRQ)
      ensures Valid() && g == old(g).(jump := Loop) && ab == old(ab)
    {
      hide PrefixOK, Compile, AbsOps;
      cur := cur + [LoopBack];
      g := g.(jump := Loop);
    }

    method RW(rd: bool, wr: bool)
      requires Ready() && !(rd && wr)
      modifies this
      ensures unchanged(`isMem, `hasFooter, `noTAtEnd, `overrideIRQ)
      ensures Ready() && g == Ask(old(g), [], Pins(rd, wr)) && ab == old(ab)
      ensures Levels(Pins(rd, wr), old(OldPins(g)))
    {
      hide PrefixOK, Compile, AbsOps;
      newRd, newWr := rd, wr;
      assert g.pre + [] == g.pre;
      g := Ask(g, [], Pins(rd, wr));
    }

    method SetDownRw()
      modifies `cur, `oldRd, `oldWr
      ensures cur == old(cur) + Delta(old(Pins(oldRd, oldWr)), Pins(newRd, newWr))
      ensures oldRd == newRd && oldWr == newWr
    {
      if newRd != oldRd || newWr != oldWr {
        if oldRd != newRd {
          cur := cur + [PinRD(newRd)];
        }
        if oldWr != newWr {
          cur := cur + [PinWR(newWr)];
        }
        oldRd, oldWr := newRd, newWr;
      }
    }

    /** Close the open case with the pins last requested in it, and open the next one. */
    method AddCycle()
      requires Valid()
      modifies this
      ensures unchanged(`isMem, `hasFooter, `noTAtEnd, `overrideIRQ)
      ensures Valid() && (!old(g).jump.Skip? ==> IsOpen(g)) && (old(IsOpen(g)) ==> IsOpen(g))
      ensures g == Close(old(g)) && ab == LatchAbs(old(ab), old(g).want)
      ensures Levels(IDLE, old(g).want)
    {
      hide GenOK, Emitted, Delta, LatchAbs, Close, OldPins;
      CloseEmitted(done, cur, Pins(oldRd, oldWr), Pins(newRd, newWr), g);
      EmittedWant(done, cur, Pins(oldRd, oldWr), Pins(newRd, newWr), g);
      CloseOK(g, entry, ab, aim);
      if inCase {
        SetDownRw();
        done := done + [cur];
      }
      lastCase := lastCase + 1;
      newRd, newWr := false, false;
      inCase := true;
      cur := [];
      entry, ab := entry + [ab], LatchAbs(ab, g.want);
      g := Close(g);
    }

    method Cleanup()
      requires Valid()
      modifies this
      ensures unchanged(`isMem, `noTAtEnd, `overrideIRQ) && hasFooter
      ensures Valid() && (!old(g).jump.Skip? ==> IsOpen(g)) && (old(IsOpen(g)) ==> IsOpen(g))
      ensures g == Close(old(g)) && ab == LatchAbs(old(ab), old(g).want)
      ensures Levels(IDLE, old(g).want)
    {
      hide GenOK, Compile;
      hasFooter := true;
      AddCycle();
    }

    method AddrToPC()
      requires Ready() && PcFine(ab, aim)
      modifies this
      ensures unchanged(`isMem, `hasFooter, `noTAtEnd, `overrideIRQ)
      ensures Ready() && g == Write(old(g), [ADDR_PC]) && ab == old(ab)
      ensures Levels(old(g).want, old(OldPins(g)))
    {
      hide GenOK, Compile;
      Addl(ADDR_PC.m);
    }

    method IncPC()
      requires Ready()
      modifies this
      ensures unchanged(`isMem, `hasFooter, `noTAtEnd, `overrideIRQ)
      ensures Ready() && g == Write(old(g), [INC_PC]) && ab == old(ab).(pc := Half)
      ensures Levels(old(g).want, old(OldPins(g)))
    {
      hide GenOK, Compile;
      Addl(INC_PC.m);
    }

    method DummyRead(last: bool)
      requires Ready() && PcFine(ab, aim)
      modifies this
      ensures unchanged(`isMem, `hasFooter, `noTAtEnd, `overrideIRQ)
      ensures Ready()
      ensures last ==> g == Ask(old(g), [ADDR_PC], READ) && ab == old(ab) && Levels(READ, old(OldPins(g)))
      ensures !last ==> g == Close(Ask(old(g), [ADDR_PC], READ)) && ab == ByteAt(old(ab), None) && Levels(IDLE, READ)
    {
      hide GenOK, Compile;
      AddrToPC();
      RW(true, false);
      assert g == Ask(old(g), [ADDR_PC], READ);
      if !last {
        AddCycle();
      }
    }

    /** load16 and load8, told apart by how the address is formed. */
    method LoadAt(dest: Option<Reg>, addr: Micro, last: bool)
      requires Ready() && (addr.AddrPage1? || addr.AddrMapped?) && AbsDo(addr, ab, aim.wraps).Some?
      modifies this
      ensures unchanged(`isMem, `hasFooter, `noTAtEnd, `overrideIRQ)
      ensures Ready()
      ensures last ==> g == Ask(old(g), [Just(addr)], READ) && ab == old(ab) && Levels(READ, old(OldPins(g)))
      ensures !last ==> g == Load(old(g), addr, TakeOps(dest)) && ab == ByteAt(old(ab), dest) && Levels(IDLE, READ)
    {
      hide GenOK, Compile;
      Addl(addr);
      RW(true, false);
      assert g == Ask(old(g), [Just(addr)], READ);
      if !last {
        AddCycle();
        RW(false, false);
        if dest.Some? {
          Addl(Move(dest.value, Data));
        }
      }
    }

    method Operand(dest: Option<Reg>, last: bool)
      requires Ready() && PcFine(ab, aim)
      modifies this
      ensures unchanged(`isMem, `hasFooter, `noTAtEnd, `overrideIRQ)
      ensures Ready()
      ensures last ==>
        g == Write(Ask(old(g), [ADDR_PC], READ), [INC_PC]) && ab == old(ab).(pc := Half) &&
          Levels(READ, old(OldPins(g)))
      ensures !last ==>
        g == Fetched(old(g), dest) && ab == ByteAt(old(ab), dest).(pc := Half) && Levels(IDLE, READ)
    {
      hide GenOK, Compile, Write, Ask, Load;
      LoadAt(dest, AddrMapped(Reg(RPC)), last);
      IncPC();
    }

    /** `latch` stores D in a register or in P. */
    method Pull(latch: Micro, last: bool)
      requires Ready() && (latch == LoadStatus || (latch.Move? && latch.v == Data))
      modifies this
      ensures unchanged(`isMem, `noTAtEnd, `overrideIRQ) && hasFooter == (old(hasFooter) || last)
      ensures Ready() && g == Write(Close(Ask(old(g), PULL_OPS, READ)), [Just(latch)])
      ensures ab == ByteAt(old(ab), if latch.Move? then Some(latch.dst) else None) && Levels(IDLE, READ)
    {
      hide GenOK, Compile, AbsDo, ByteAt;
      LatchTakes(latch, ab, aim.wraps);
      Addl(INC_S.m);
      Addl(AddrStack);
      RW(true, false);
      assert g.pre == old(g).pre + PULL_OPS;
      if !last {
        AddCycle();
      } else {
        Cleanup();
      }
      Addl(latch);
    }

    method Push(wha: Src, last: bool)
      requires Ready() && SizeOf(ab, wha).Some?
      modifies this
      ensures unchanged(`isMem, `hasFooter, `noTAtEnd, `overrideIRQ)
      ensures Ready() && ab == old(ab).(d := SizeOf(old(ab), wha).value)
      ensures last ==> g == Ask(old(g), PushOps(wha), WRITE) && Levels(WRITE, old(OldPins(g)))
      ensures !last ==> g == Close(Ask(old(g), PushOps(wha), WRITE)) && Levels(IDLE, WRITE)
    {
      hide GenOK, Compile;
      Addl(AddrStack);
      Addl(Out(wha));
      Addl(DEC_S.m);
      RW(false, true);
      assert g.pre == old(g).pre + PushOps(wha);
      if !last {
        AddCycle();
      }
    }

    /** store8 and store16, told apart by how the address is formed. */
    method StoreAt(addr: Micro, val: Src, last: bool)
      requires Ready() && (addr.AddrPage1? || addr.AddrMapped?)
      requires AbsDo(addr, ab, aim.wraps).Some? && SizeOf(ab, val).Some?
      modifies this
      ensures unchanged(`isMem, `hasFooter, `noTAtEnd, `overrideIRQ)
      ensures Ready() && ab == old(ab).(d := SizeOf(old(ab), val).value)
      ensures last ==> g == Ask(old(g), [Just(addr), Just(Out(val))], WRITE) && Levels(WRITE, old(OldPins(g)))
      ensures !last ==> g == Close(Ask(old(g), [Just(addr), Just(Out(val))], WRITE)) && Levels(IDLE, WRITE)
    {
      hide GenOK, Compile;
      Addl(addr);
      Addl(Out(val));
      RW(false, true);
      assert g.pre == old(g).pre + [Just(addr), Just(Out(val))];
      if !last {
        AddCycle();
      }
    }

    method AddrToSThenDec()
      requires Ready()
      modifies this
      ensures unchanged(`isMem, `hasFooter, `noTAtEnd, `overrideIRQ)
      ensures Ready() && g == Write(old(g), [Just(AddrResetStack), DEC_S]) && ab == old(ab)
      ensures Levels(old(g).want, old(OldPins(g)))
    {
      hide GenOK, Compile;
      Addl(AddrResetStack);
      Addl(DEC_S.m);
      assert g.pre == old(g).pre + [Just(AddrResetStack), DEC_S];
    }

    method RegularEnd()
      requires Ready() && PcFine(ab, aim)
      modifies this
      ensures unchanged(`isMem, `hasFooter, `noTAtEnd, `overrideIRQ)
      ensures g == Ask(if hasFooter then old(g) else Close(old(g)), FETCH, READ)
      ensures IsOpen(g) && GenOK(g, entry, ab, aim) && done == Compile(g.cycles)
      ensures cur == Emit(OldPins(g), Cycle(g.pre, Straight, READ, EndOps(!overrideIRQ, !noTAtEnd)))
    {
      hide GenOK, Compile, Delta, EndOps, AbsDo, Emit;
      if !hasFooter {
        AddCycle();
      }
      ghost var p := g.pre;
      AddrToPC();
      IncPC();
      RW(true, false);
      assert g.pre == p + FETCH;
      SetDownRw();
      EndText(OldPins(g), g.pre, !overrideIRQ, !noTAtEnd);
      if !overrideIRQ {
        cur := cur + [Just(PollIrqs)];
      }
      if !noTAtEnd {
        cur := cur + [Just(PutFlag(FT, false))];
      }
      cur := cur + [ClearTCU];
    }

    /** The text of the whole switch. */
    method Finished() returns (r: seq<seq<Op>>)
      requires Ready() && PcFine(ab, aim)
      modifies this
      ensures r == Compile(Finish(old(g), old(hasFooter), !old(overrideIRQ), !old(noTAtEnd)))
      ensures aim.certify ==> IsCertified(r, aim.wraps, !old(overrideIRQ), !old(noTAtEnd))
    {
      hide GenOK, Compile, Certified, IsCertified, EndOps, Emit;
      ghost var poll, clearT := !overrideIRQ, !noTAtEnd;
      RegularEnd();
      CompileAppend(g.cycles, Cycle(g.pre, Straight, READ, EndOps(poll, clearT)));
      done := done + [cur];
      r := done;
      if aim.certify {
        FinishCertified(g, entry, ab, aim, poll, clearT);
        HasCertificate(r, Finish(old(g), old(hasFooter), poll, clearT), entry + [ab], aim.wraps, poll, clearT);
      }
    }
  }
}
