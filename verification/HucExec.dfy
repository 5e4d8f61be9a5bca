/** What single instructions do, derived by stepping their microcode through the driver. */
module HucExec {
  import opened HucMachine
  import opened HucMicrocode
  import opened HucCertify
  import opened HucSwitchgen
  import opened HucText

  // ----- One straight cycle -----

  function Micros(ops: seq<Op>, c: Core): Core
    requires forall op <- ops :: op.Just?
  {
    if |ops| == 0 then c else Do(ops[|ops| - 1].m, Micros(ops[..|ops| - 1], c))
  }

  lemma {:induction false} RunMicros(ops: seq<Op>, s: Cpu)
    requires forall op <- ops :: op.Just?
    ensures RunOps(ops, Go(s)) == Go(s.(core := Micros(ops, s.core)))
  {
    hide Do;
    if |ops| > 0 {
      RunMicros(ops[..|ops| - 1], s);
    }
  }

  function Write1(mem: map<int, byte>, c: Core, wr: bool): map<int, byte> {
    if wr then mem[c.addr := AsByte(c.d)] else mem
  }

  function Latched(s: Cpu): Core {
    if s.rd then s.core.(d := Read(s.mem, s.core.addr)) else s.core
  }

  /** A case without jumps or early exits: `c` is the core its statements leave. */
  lemma StraightTick(cs: seq<Cycle>, s: Cpu, ops: seq<Op>, pins: Pins, c: Core)
    requires 0 <= s.tcu < |cs| && cs[s.tcu] == C(ops, pins)
    requires forall op <- ops :: op.Just?
    requires c == Micros(ops, Latched(s))
    ensures RefTick(cs, s) == Cpu(c, s.tcu + 1, pins.rd, pins.wr, Write1(s.mem, c, pins.wr))
  {
    hide Do;
    RunMicros(ops, Latch(s));
  }

  lemma Micros1(a: Micro, c: Core)
    ensures Micros([Just(a)], c) == Do(a, c)
  {
    hide Do;
    assert [Just(a)][..0] == [];
  }

  lemma Micros2(a: Micro, b: Micro, c: Core)
    ensures Micros([Just(a), Just(b)], c) == Do(b, Do(a, c))
  {
    hide Do;
    assert [Just(a), Just(b)][..1] == [Just(a)];
    Micros1(a, c);
  }

  lemma Micros3(a: Micro, b: Micro, d: Micro, c: Core)
    ensures Micros([Just(a), Just(b), Just(d)], c) == Do(d, Do(b, Do(a, c)))
  {
    hide Do;
    assert [Just(a), Just(b), Just(d)][..2] == [Just(a), Just(b)];
    Micros2(a, b, c);
  }

  lemma {:induction false} MicrosAppend(xs: seq<Op>, ys: seq<Op>, c: Core)
    requires forall op <- xs + ys :: op.Just?
    requires forall op <- xs :: op.Just?
    requires forall op <- ys :: op.Just?
    ensures Micros(xs + ys, c) == Micros(ys, Micros(xs, c))
    decreases |ys|
  {
    hide Do;
    if ys == [] {
      assert xs + ys == xs;
    } else {
      var n := |ys| - 1;
      assert (xs + ys)[..|xs + ys| - 1] == xs + ys[..n];
      MicrosAppend(xs, ys[..n], c);
    }
  }

  lemma PushTick(cs: seq<Cycle>, s: Cpu, v: Src)
    requires 0 <= s.tcu < |cs| && cs[s.tcu] == C(PushOps(v), WRITE)
    ensures var c := Latched(s); var a := StackAddr(c.r.mpr, c.r.sp); var d := Eval(c.(addr := a), v);
      RefTick(cs, s) == Cpu(c.(addr := a, d := d, r := c.r.(sp := Dec8(c.r.sp))), s.tcu + 1, false, true,
        s.mem[a := AsByte(d)])
  {
    hide StackAddr;
    var c := Latched(s);
    var a := StackAddr(c.r.mpr, c.r.sp);
    Micros3(AddrStack, Out(v), DEC_S.m, c);
    StraightTick(cs, s, PushOps(v), WRITE, Micros(PushOps(v), c));
  }

  /** A case that ends by asking for the byte on top of the stack. */
  lemma PullTick(cs: seq<Cycle>, s: Cpu, pre: seq<Op>, c: Core)
    requires 0 <= s.tcu < |cs| && cs[s.tcu] == C(pre + PULL_OPS, READ)
    requires (forall op <- pre :: op.Just?) && Micros(pre, Latched(s)) == c
    ensures var sp := Inc8(c.r.sp);
      RefTick(cs, s) == Cpu(c.(addr := StackAddr(c.r.mpr, sp), r := c.r.(sp := sp)), s.tcu + 1, true, false, s.mem)
  {
    hide StackAddr, Do;
    MicrosAppend(pre, PULL_OPS, Latched(s));
    Micros2(INC_S.m, AddrStack, c);
    PullDo(c);
    PullDo(c.(r := c.r.(sp := Inc8(c.r.sp))));
    StraightTick(cs, s, pre + PULL_OPS, READ, Micros(PULL_OPS, c));
  }

  lemma PullDo(c: Core)
    ensures Do(INC_S.m, c) == c.(r := c.r.(sp := Inc8(c.r.sp)))
    ensures Do(AddrStack, c) == c.(addr := StackAddr(c.r.mpr, c.r.sp))
  {
    hide StackAddr;
  }

  lemma IdleTick(cs: seq<Cycle>, s: Cpu)
    requires 0 <= s.tcu < |cs| && cs[s.tcu] == C([], IDLE)
    ensures RefTick(cs, s) == Cpu(Latched(s), s.tcu + 1, false, false, s.mem)
  {
    StraightTick(cs, s, [], IDLE, Latched(s));
  }

  /** The last case: `ops`, then the fetch of the next opcode. */
  lemma EndTick(cs: seq<Cycle>, s: Cpu, ops: seq<Op>, poll: bool, clearT: bool)
    requires 0 <= s.tcu < |cs| && cs[s.tcu] == Ending(ops, poll, clearT)
    requires forall op <- ops :: op.Just?
    ensures RefTick(cs, s) == Cpu(EndCore(poll, clearT, Fetch(Micros(ops, Latched(s)))), 0, true, false, s.mem)
  {
    hide Do, Fetch, EndOps;
    RunMicros(ops, Latch(s));
    RunOpsAppend(ops, FETCH, Go(Latch(s)));
    var s1 := Latch(s).(core := Micros(ops, Latched(s)));
    FetchRuns(s1);
    EndOpsRun(poll, clearT, s1.(core := Fetch(s1.core), rd := true, wr := false));
  }

  // ----- From cycles to instructions -----

  lemma {:induction false} RefTicksAdd(cs: seq<Cycle>, s: Cpu, m: nat, n: nat)
    ensures RefTicks(cs, s, m + n) == RefTicks(cs, RefTicks(cs, s, m), n)
    decreases m
  {
    hide RefTick;
    if m > 0 {
      RefTicksAdd(cs, RefTick(cs, s), m - 1, n);
    }
  }

  /** `t` is reached from `s` after n cycles, none of which ends the instruction. */
  ghost predicate Within(cs: seq<Cycle>, s: Cpu, n: nat, t: Cpu) {
    RefTicks(cs, s, n) == t && forall k: nat :: 0 < k <= n ==> 0 < RefTicks(cs, s, k).tcu < |cs|
  }

  lemma WithinNone(cs: seq<Cycle>, s: Cpu)
    ensures Within(cs, s, 0, s)
  {
  }

  lemma WithinMore(cs: seq<Cycle>, s: Cpu, n: nat, t: Cpu)
    requires Within(cs, s, n, t) && 0 < RefTick(cs, t).tcu < |cs|
    ensures Within(cs, s, n + 1, RefTick(cs, t))
  {
    hide RefTick;
    RefTicksAdd(cs, s, n, 1);
    assert RefTicks(cs, t, 1) == RefTicks(cs, RefTick(cs, t), 0);
  }

  /** A cycle that ends the instruction completes it, also as emitted. */
  lemma Completed(cs: seq<Cycle>, s: Cpu, n: nat, u: Cpu, t: Cpu)
    requires PinsOK(cs) && s.tcu == 0 && s.rd && !s.wr && |cs| > 0
    requires Within(cs, s, n, u) && RefTick(cs, u) == t && t.tcu == 0
    ensures Completes(Compile(cs), s, n + 1, t)
  {
    hide RefTick, PinsOK, Compile;
    RefTicksAdd(cs, s, n, 1);
    assert RefTicks(cs, u, 1) == RefTicks(cs, RefTick(cs, u), 0);
    forall k: nat | k <= n
      ensures RefTicks(cs, s, k).tcu < |cs|
    {
      assert RefTicks(cs, s, 0) == s;
    }
    forall k: nat | k <= n + 1
      ensures Ticks(Compile(cs), s, k) == RefTicks(cs, s, k)
    {
      PinEncodingSound(cs, s, k);
    }
  }
}
