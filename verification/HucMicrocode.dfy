/**
 Microcode before and after pin encoding. A `Cycle` is what an instruction function asks for:
 the statements of one case, an optional jump, the RD/WR levels it requested, and the closing
 statements of the last case. `Compile` is the form that is emitted: pins are only written
 where they differ from the textually preceding case.
 */
module HucMicrocode {
  import opened HucMachine

  datatype Pins = Pins(rd: bool, wr: bool)

  const START := Pins(true, false)
  const IDLE := Pins(false, false)
  const READ := Pins(true, false)
  const WRITE := Pins(false, true)

  /** Skip(c): if (c) TCU++. Loop: if (TR[2]) TCU -= 6. */
  datatype Jump = Straight | Skip(c: Cond) | Loop

  datatype Cycle = Cycle(pre: seq<Op>, jump: Jump, pins: Pins, post: seq<Op>)

  /** Concatenations of displays, as displays; bodies and programs are built up piece by piece. */
  lemma Flatten<T>()
    ensures forall s: seq<T> {:trigger [] + s} :: [] + s == s
    ensures forall s: seq<T> {:trigger s + []} :: s + [] == s
    ensures forall x1: T, x2: T {:trigger [x1] + [x2]} ::
      [x1] + [x2] == [x1, x2]
    ensures forall x1: T, x2: T, x3: T {:trigger [x1, x2] + [x3]} ::
      [x1, x2] + [x3] == [x1, x2, x3]
    ensures forall x1: T, x2: T, x3: T, x4: T {:trigger [x1, x2, x3] + [x4]} ::
      [x1, x2, x3] + [x4] == [x1, x2, x3, x4]
    ensures forall x1: T, x2: T, x3: T, x4: T, x5: T {:trigger [x1, x2, x3, x4] + [x5]} ::
      [x1, x2, x3, x4] + [x5] == [x1, x2, x3, x4, x5]
    ensures forall x1: T, x2: T, x3: T, x4: T, x5: T, x6: T {:trigger [x1, x2, x3, x4, x5] + [x6]} ::
      [x1, x2, x3, x4, x5] + [x6] == [x1, x2, x3, x4, x5, x6]
    ensures forall x1: T, x2: T, x3: T, x4: T, x5: T, x6: T, x7: T {:trigger [x1, x2, x3, x4, x5, x6] + [x7]} ::
      [x1, x2, x3, x4, x5, x6] + [x7] == [x1, x2, x3, x4, x5, x6, x7]
    ensures forall x1: T, x2: T, x3: T, x4: T, x5: T, x6: T, x7: T,
      x8: T {:trigger [x1, x2, x3, x4, x5, x6, x7] + [x8]} ::
      [x1, x2, x3, x4, x5, x6, x7] + [x8] == [x1, x2, x3, x4, x5, x6, x7, x8]
    ensures forall x1: T, x2: T, x3: T, x4: T, x5: T, x6: T, x7: T, x8: T,
      x9: T {:trigger [x1, x2, x3, x4, x5, x6, x7, x8] + [x9]} ::
      [x1, x2, x3, x4, x5, x6, x7, x8] + [x9] == [x1, x2, x3, x4, x5, x6, x7, x8, x9]
    ensures forall x1: T, x2: T, x3: T {:trigger [x1] + [x2, x3]} ::
      [x1] + [x2, x3] == [x1, x2, x3]
    ensures forall x1: T, x2: T, x3: T, x4: T {:trigger [x1, x2] + [x3, x4]} ::
      [x1, x2] + [x3, x4] == [x1, x2, x3, x4]
    ensures forall x1: T, x2: T, x3: T, x4: T, x5: T {:trigger [x1, x2, x3] + [x4, x5]} ::
      [x1, x2, x3] + [x4, x5] == [x1, x2, x3, x4, x5]
    ensures forall x1: T, x2: T, x3: T, x4: T {:trigger [x1] + [x2, x3, x4]} ::
      [x1] + [x2, x3, x4] == [x1, x2, x3, x4]
    ensures forall x1: T, x2: T, x3: T, x4: T, x5: T {:trigger [x1, x2] + [x3, x4, x5]} ::
      [x1, x2] + [x3, x4, x5] == [x1, x2, x3, x4, x5]
    ensures forall x1: T, x2: T, x3: T, x4: T, x5: T, x6: T {:trigger [x1, x2, x3] + [x4, x5, x6]} ::
      [x1, x2, x3] + [x4, x5, x6] == [x1, x2, x3, x4, x5, x6]
  {
  }

  function PinsBefore(cs: seq<Cycle>, k: nat): Pins
    requires k <= |cs|
  {
    if k == 0 then START else cs[k - 1].pins
  }

  function JumpOps(j: Jump): seq<Op> {
    match j
    case Straight => []
    case Skip(c) => [SkipIf(c)]
    case Loop => [LoopBack]
  }

  function Delta(before: Pins, now: Pins): seq<Op> {
    (if before.rd != now.rd then [PinRD(now.rd)] else [])
    + (if before.wr != now.wr then [PinWR(now.wr)] else [])
  }

  function Emit(before: Pins, c: Cycle): seq<Op> {
    c.pre + JumpOps(c.jump) + Delta(before, c.pins) + c.post
  }

  function Compile(cs: seq<Cycle>): seq<seq<Op>> {
    seq(|cs|, k requires 0 <= k < |cs| => Emit(PinsBefore(cs, k), cs[k]))
  }

  lemma CompileAppend(cs: seq<Cycle>, c: Cycle)
    ensures Compile(cs + [c]) == Compile(cs) + [Emit(PinsBefore(cs, |cs|), c)]
  {
    forall k | 0 <= k < |cs|
      ensures Compile(cs + [c])[k] == Compile(cs)[k]
    {
      assert PinsBefore(cs + [c], k) == PinsBefore(cs, k);
    }
    assert PinsBefore(cs + [c], |cs|) == PinsBefore(cs, |cs|);
  }

  // ----- What a cycle means: every pin is driven to the level requested -----

  function DoJump(j: Jump, s: Cpu): Cpu {
    match j
    case Straight => s
    case Skip(c) => if Holds(c, s.core) then s.(tcu := s.tcu + 1) else s
    case Loop => if s.core.r.tr[2] != 0 then s.(tcu := s.tcu - 6) else s
  }

  function RefCycle(c: Cycle, s: Cpu): Cpu {
    var f := RunOps(c.pre, Go(s));
    if f.Ret? then f.s
    else
      var s1 := DoJump(c.jump, f.s);
      RunOps(c.post, Go(s1.(rd := c.pins.rd, wr := c.pins.wr))).s
  }

  function RefTick(cs: seq<Cycle>, s: Cpu): Cpu {
    var s1 := Latch(s);
    if 1 <= s1.tcu <= |cs| then Commit(RefCycle(cs[s1.tcu - 1], s1))
    else Commit(s1.(core := s1.core.(fault := true)))
  }

  function RefTicks(cs: seq<Cycle>, s: Cpu, n: nat): Cpu
    decreases n
  {
    if n == 0 then s else RefTicks(cs, RefTick(cs, s), n - 1)
  }

  // ----- When leaving out unchanged pins is sound -----

  predicate Quiet(op: Op) {
    op.Just? || op.ClearTCU?
  }

  predicate IsIdle(c: Cycle) {
    c == Cycle([], Straight, IDLE, [])
  }

  /** Case k+1: its early exits start with WR low, its jumps land where the same pins are expected. */
  predicate PinsFit(cs: seq<Cycle>, k: nat)
    requires k < |cs|
  {
    && (forall op <- cs[k].pre :: op.Just? || (op.BrEnd? && !PinsBefore(cs, k).wr))
    && (forall op <- cs[k].post :: Quiet(op))
    && (cs[k].post != [] ==> cs[k].jump == Straight && cs[k].pins == READ && cs[k].post[|cs[k].post| - 1] == ClearTCU)
    && (forall i :: 0 <= i < |cs[k].post| - 1 ==> cs[k].post[i] != ClearTCU)
    && (cs[k].jump.Skip? ==> k + 1 < |cs| && cs[k + 1].pins == cs[k].pins)
    && (cs[k].jump.Loop? ==> k >= 5 && PinsBefore(cs, k - 5) == cs[k].pins)
  }

  predicate PinsOK(cs: seq<Cycle>) {
    forall k :: 0 <= k < |cs| ==> PinsFit(cs, k)
  }

  /** Between cycles the pins hold what the case before the next one asked for. */
  predicate PinsTracked(cs: seq<Cycle>, s: Cpu) {
    && 0 <= s.tcu <= |cs|
    && Pins(s.rd, s.wr) == PinsBefore(cs, s.tcu)
  }

  lemma {:induction false} PreKeepsPins(ops: seq<Op>, s: Cpu, wr: bool)
    requires forall op <- ops :: op.Just? || (op.BrEnd? && !wr)
    requires s.wr == wr
    ensures var f := RunOps(ops, Go(s));
      if f.Go? then f.s.rd == s.rd && f.s.wr == s.wr && f.s.tcu == s.tcu
      else f.s.rd && !f.s.wr && f.s.tcu == 0
  {
    hide Do;
    if ops != [] {
      var n := |ops| - 1;
      PreKeepsPins(ops[..n], s, wr);
    }
  }

  lemma {:induction false} QuietKeepsPins(ops: seq<Op>, s: Cpu)
    requires forall op <- ops :: Quiet(op)
    ensures var f := RunOps(ops, Go(s));
      && f.Go? && f.s.rd == s.rd && f.s.wr == s.wr
      && ((forall op <- ops :: op != ClearTCU) ==> f.s.tcu == s.tcu)
      && (ops != [] && ops[|ops| - 1] == ClearTCU ==> f.s.tcu == 0)
  {
    hide Do;
    if ops != [] {
      var n := |ops| - 1;
      QuietKeepsPins(ops[..n], s);
      assert ops[n] in ops;
      assert forall op <- ops[..n] :: op in ops;
    }
  }

  lemma DeltaSetsPins(before: Pins, now: Pins, s: Cpu)
    requires s.rd == before.rd && s.wr == before.wr
    ensures RunOps(Delta(before, now), Go(s)) == Go(s.(rd := now.rd, wr := now.wr))
  {
    var r := if before.rd != now.rd then [PinRD(now.rd)] else [];
    var w := if before.wr != now.wr then [PinWR(now.wr)] else [];
    RunOpsAppend(r, w, Go(s));
    assert RunOps(r, Go(s)) == Go(s.(rd := now.rd));
  }

  lemma {:induction false} RetStays(ops: seq<Op>, s: Cpu)
    ensures RunOps(ops, Ret(s)) == Ret(s)
  {
    if ops != [] {
      RetStays(ops[..|ops| - 1], s);
    }
  }

  lemma JumpOpsJump(j: Jump, s: Cpu)
    ensures RunOps(JumpOps(j), Go(s)) == Go(DoJump(j, s))
  {
    if !j.Straight? {
      assert JumpOps(j)[..0] == [];
    }
  }

  lemma EmitRuns(before: Pins, c: Cycle, f: Flow)
    ensures RunOps(Emit(before, c), f)
         == RunOps(c.post, RunOps(Delta(before, c.pins), RunOps(JumpOps(c.jump), RunOps(c.pre, f))))
  {
    RunOpsAppend(c.pre + JumpOps(c.jump) + Delta(before, c.pins), c.post, f);
    RunOpsAppend(c.pre + JumpOps(c.jump), Delta(before, c.pins), f);
    RunOpsAppend(c.pre, JumpOps(c.jump), f);
  }

  /** An emitted case does what the requested cycle means, if the pins were tracked at its start. */
  lemma EmittedCase(before: Pins, c: Cycle, s: Cpu)
    requires s.rd == before.rd && s.wr == before.wr
    requires forall op <- c.pre :: op.Just? || (op.BrEnd? && !before.wr)
    ensures RunOps(Emit(before, c), Go(s)).s == RefCycle(c, s)
  {
    hide Do;
    EmitRuns(before, c, Go(s));
    PreKeepsPins(c.pre, s, before.wr);
    var f := RunOps(c.pre, Go(s));
    if f.Ret? {
      RetStays(JumpOps(c.jump), f.s);
      RetStays(Delta(before, c.pins), f.s);
      RetStays(c.post, f.s);
    } else {
      JumpOpsJump(c.jump, f.s);
      DeltaSetsPins(before, c.pins, DoJump(c.jump, f.s));
    }
  }

  lemma CycleTracksPins(cs: seq<Cycle>, k: nat, s: Cpu)
    requires k < |cs| && PinsFit(cs, k) && s.tcu == k + 1 && Pins(s.rd, s.wr) == PinsBefore(cs, k)
    ensures PinsTracked(cs, RefCycle(cs[k], s))
  {
    hide Do;
    var c := cs[k];
    PreKeepsPins(c.pre, s, s.wr);
    var f := RunOps(c.pre, Go(s));
    if f.Go? {
      var j := DoJump(c.jump, f.s);
      JumpOpsJump(c.jump, f.s);
      QuietKeepsPins(c.post, j.(rd := c.pins.rd, wr := c.pins.wr));
      if c.post == [] {
        assert RefCycle(c, s) == j.(rd := c.pins.rd, wr := c.pins.wr);
      }
    }
  }

  /**
   Leaving out unchanged pin writes is sound, cycle by cycle, for every program whose jumps fit:
   the emitted case and the fully driven cycle reach the same state, and the pins stay tracked.
   */
  lemma PinEncodingStep(cs: seq<Cycle>, s: Cpu)
    requires PinsOK(cs) && PinsTracked(cs, s) && s.tcu < |cs|
    ensures Tick(Compile(cs), s) == RefTick(cs, s)
    ensures PinsTracked(cs, RefTick(cs, s))
  {
    hide Do;
    var s1 := Latch(s);
    var k := s.tcu;
    assert PinsFit(cs, k);
    EmittedCase(PinsBefore(cs, k), cs[k], s1);
    CycleTracksPins(cs, k, s1);
  }

  lemma {:induction false} PinEncodingSound(cs: seq<Cycle>, s: Cpu, n: nat)
    requires PinsOK(cs) && PinsTracked(cs, s)
    requires forall k :: 0 <= k < n ==> RefTicks(cs, s, k).tcu < |cs|
    ensures Ticks(Compile(cs), s, n) == RefTicks(cs, s, n)
    ensures PinsTracked(cs, RefTicks(cs, s, n))
    decreases n
  {
    if n > 0 {
      assert RefTicks(cs, s, 0) == s;
      PinEncodingStep(cs, s);
      var t := RefTick(cs, s);
      forall k | 0 <= k < n - 1
        ensures RefTicks(cs, t, k).tcu < |cs|
      {
        assert RefTicks(cs, s, k + 1) == RefTicks(cs, t, k);
      }
      PinEncodingSound(cs, t, n - 1);
    }
  }
}
