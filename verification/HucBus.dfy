/**
 The driver asserts after every cycle that the address pins stay below 0x200000. Certified microcode
 keeps them there case by case; here the same is shown of the block moves, whose loop has no certificate.
 */
module HucBus {
  import opened HucMachine
  import opened HucMicrocode
  import opened HucCertify
  import opened HucSwitchgen
  import opened HucText

  /** The address is on the bus in every cycle up to and including cycle n. */
  ghost predicate StaysOnBus(cases: seq<seq<Op>>, s: Cpu, n: nat) {
    forall k: nat :: k <= n ==> OnBus(Ticks(cases, s, k).core)
  }

  /** Banks aligned, S a byte. */
  predicate Steady(c: Core) {
    OnBus(c) && (forall i :: 0 <= i < 8 ==> AlignedBank(c.r.mpr[i])) && Fits(Byte, c.r.sp)
  }

  /** The statements of block moves. */
  predicate Moves(m: Micro) {
    || m.AddrMapped? || m.AddrStack? || m.Out? || m.BlockMode? || m.PollIrqs? || m == PutFlag(FT, false)
    || m == INC_S.m || m == DEC_S.m
    || ((m.Move? || m.Sum? || m.Join? || m.Toggle? || m.Zigzag?) && m.dst != RS)
  }

  predicate MovesOp(op: Op) {
    op == LoopBack || op == ClearTCU || op.PinRD? || op.PinWR? || (op.Just? && Moves(op.m))
  }

  lemma MoveSteady(m: Micro, c: Core)
    requires Steady(c) && Moves(m)
    ensures Steady(Do(m, c))
  {
    hide Phys, StackAddr, Poll, DoRegs;
    match m {
      case AddrMapped(v) => AddressesFit(c.r.mpr, Eval(c, v));
      case AddrStack => AddressesFit(c.r.mpr, c.r.sp);
      case PollIrqs => PollSteady(c);
      case _ => RegsSteady(m, c);
    }
  }

  lemma RegsSteady(m: Micro, c: Core)
    requires Fits(Byte, c.r.sp) && Moves(m)
    ensures DoRegs(m, c).mpr == c.r.mpr && Fits(Byte, DoRegs(m, c).sp)
  {
    hide Eval, Word;
  }

  lemma PollSteady(c: Core)
    ensures Steady(Poll(c)) == Steady(c)
  {
  }

  lemma {:induction false} OpsSteady(ops: seq<Op>, s: Cpu)
    requires Steady(s.core) && forall op <- ops :: MovesOp(op)
    ensures RunOps(ops, Go(s)).Go? && Steady(RunOps(ops, Go(s)).s.core)
  {
    hide Do, Steady, Moves;
    if |ops| > 0 {
      var n := |ops| - 1;
      OpsSteady(ops[..n], s);
      var f := RunOps(ops[..n], Go(s));
      assert MovesOp(ops[n]);
      if ops[n].Just? {
        MoveSteady(ops[n].m, f.s.core);
      }
    }
  }

  lemma {:induction false} MoveOnBus(cases: seq<seq<Op>>, s: Cpu, n: nat)
    requires Steady(s.core) && forall k :: 0 <= k < |cases| ==> forall op <- cases[k] :: MovesOp(op)
    ensures StaysOnBus(cases, s, n)
    decreases n
  {
    hide Steady, MovesOp;
    SteadyIs(s.core);
    assert Ticks(cases, s, 0) == s;
    if n > 0 {
      TickSteady(cases, s);
      var u := Tick(cases, s);
      MoveOnBus(cases, u, n - 1);
      forall k: nat | 0 < k <= n
        ensures Ticks(cases, s, k) == Ticks(cases, u, k - 1)
      {
      }
    }
  }

  lemma SteadyIs(c: Core)
    requires Steady(c)
    ensures OnBus(c)
  {
  }

  lemma TickSteady(cases: seq<seq<Op>>, s: Cpu)
    requires Steady(s.core) && forall k :: 0 <= k < |cases| ==> forall op <- cases[k] :: MovesOp(op)
    ensures Steady(Tick(cases, s).core)
  {
    hide MovesOp, RunOps;
    var l := Latch(s);
    if 1 <= l.tcu <= |cases| {
      OpsSteady(cases[l.tcu - 1], l);
    }
  }

  /** A cycle whose statements only move. */
  predicate MovesIn(c: Cycle) {
    (forall op <- c.pre :: MovesOp(op)) && (forall op <- c.post :: MovesOp(op)) && !c.jump.Skip?
  }

  lemma EmitMoves(before: Pins, c: Cycle)
    requires MovesIn(c)
    ensures forall op <- Emit(before, c) :: MovesOp(op)
  {
    hide Moves;
  }

  lemma SetupMoves(i: nat)
    requires i < 13
    ensures |BlockSetup()| == 13 && MovesIn(BlockSetup()[i])
  {
  }

  lemma BodyMoves(k: MoveKind, i: nat)
    requires i < 6
    ensures |BlockBody(k)| == 6 && MovesIn(BlockBody(k)[i])
  {
    hide MoveOps;
    MoveOpsMove(k);
  }

  lemma MoveOpsMove(k: MoveKind)
    ensures forall op <- MoveOps(k) :: MovesOp(op)
  {
  }

  lemma FinishMoves(i: nat)
    requires i < 4
    ensures |BlockFinish()| == 4 && MovesIn(BlockFinish()[i])
  {
  }

  /** Block moves, for as many cycles as they take. */
  lemma BlockOnBus(k: MoveKind, s: Cpu, n: nat)
    requires Steady(s.core)
    ensures StaysOnBus(Compile(BlockCode(k)), s, n)
  {
    hide BlockSetup, BlockBody, BlockFinish, MovesIn, MovesOp, Emit;
    var cs := BlockCode(k);
    SetupMoves(0);
    BodyMoves(k, 0);
    FinishMoves(0);
    forall i | 0 <= i < |cs|
      ensures forall op <- Emit(PinsBefore(cs, i), cs[i]) :: MovesOp(op)
    {
      if i < 13 {
        SetupMoves(i);
      } else if i < 19 {
        BodyMoves(k, i - 13);
      } else {
        FinishMoves(i - 19);
      }
      EmitMoves(PinsBefore(cs, i), cs[i]);
    }
    MoveOnBus(Compile(cs), s, n);
  }
}
