/**
 Microcode without loops or skips, as a fold over its cycles: what an instruction leaves is found by
 running the statements of its cases one after the other, whatever the pins are encoded as.
 */
module HucStraight {
  import opened HucMachine
  import opened HucMicrocode
  import opened HucCertify
  import opened HucText
  import opened HucExec
  import opened HucTMode

  /** The state between two cycles, the byte on order already delivered. */
  datatype Held = Held(c: Core, mem: map<int, byte>)

  function Hold(s: Cpu): Held {
    Held(Latched(s), s.mem)
  }

  function Cyc(c: Cycle, h: Held): Held
    requires Plain(c)
  {
    var x := Micros(c.pre, h.c);
    var m := Write1(h.mem, x, c.pins.wr);
    Held(if c.pins.rd then x.(d := Read(m, x.addr)) else x, m)
  }

  function Fold(cs: seq<Cycle>, h: Held): Held
    requires forall c <- cs :: Plain(c)
  {
    if |cs| == 0 then h else Cyc(cs[|cs| - 1], Fold(cs[..|cs| - 1], h))
  }

  /** The state in which an instruction ends whose last case runs `ops` from `h`. */
  function Last(h: Held, ops: seq<Op>, poll: bool, clearT: bool): Cpu
    requires forall op <- ops :: op.Just?
  {
    Cpu(EndCore(poll, clearT, Fetch(Micros(ops, h.c))), 0, true, false, h.mem)
  }

  lemma PlainTick(cs: seq<Cycle>, u: Cpu)
    requires 0 <= u.tcu < |cs| && Plain(cs[u.tcu])
    ensures var v := RefTick(cs, u); Hold(v) == Cyc(cs[u.tcu], Hold(u)) && v.tcu == u.tcu + 1
  {
    hide Do, Micros, RefTick, Plain;
    var c := cs[u.tcu];
    PlainIs(c);
    StraightTick(cs, u, c.pre, c.pins, Micros(c.pre, Latched(u)));
  }

  lemma PlainIs(c: Cycle)
    requires Plain(c)
    ensures c == C(c.pre, c.pins) && forall op <- c.pre :: op.Just?
  {
  }

  /** Plain cases from case a+1 up to case b. */
  lemma {:induction false} StraightFrom(cs: seq<Cycle>, s: Cpu, a: nat, u: Cpu, b: nat) returns (v: Cpu)
    requires a <= b < |cs| && Within(cs, s, a, u) && u.tcu == a && forall k :: a <= k < b ==> Plain(cs[k])
    ensures Within(cs, s, b, v) && v.tcu == b && Hold(v) == Fold(cs[a..b], Hold(u))
    decreases b - a
  {
    hide RefTick, Plain, Within, Cyc, Hold;
    if a == b {
      v := u;
    } else {
      var w := StraightFrom(cs, s, a, u, b - 1);
      PlainTick(cs, w);
      WithinMore(cs, s, b - 1, w);
      v := RefTick(cs, w);
      assert cs[a..b][..b - 1 - a] == cs[a..b - 1];
    }
  }

  lemma EndExec(cs: seq<Cycle>, s: Cpu, u: Cpu, ops: seq<Op>, poll: bool, clearT: bool) returns (t: Cpu)
    requires |cs| > 0 && cs[|cs| - 1] == Ending(ops, poll, clearT) && PinsOK(cs) && forall op <- ops :: op.Just?
    requires s.tcu == 0 && s.rd && !s.wr && Within(cs, s, |cs| - 1, u) && u.tcu == |cs| - 1
    ensures Completes(Compile(cs), s, |cs|, t) && t == Last(Hold(u), ops, poll, clearT)
  {
    hide RefTick, Within, Micros, Fetch, EndOps, PinsOK, Compile, Completes;
    EndTick(cs, u, ops, poll, clearT);
    t := RefTick(cs, u);
    Completed(cs, s, |cs| - 1, u, t);
  }

  /** Straight-line microcode as emitted: one cycle a case, and the fold of its statements. */
  lemma StraightExec(cs: seq<Cycle>, s: Cpu, ops: seq<Op>, poll: bool, clearT: bool) returns (t: Cpu)
    requires |cs| > 0 && cs[|cs| - 1] == Ending(ops, poll, clearT) && forall op <- ops :: op.Just?
    requires s.tcu == 0 && s.rd && !s.wr && forall c <- cs[..|cs| - 1] :: Plain(c)
    ensures Completes(Compile(cs), s, |cs|, t) && t == Last(Fold(cs[..|cs| - 1], Hold(s)), ops, poll, clearT)
  {
    hide Plain, PinsFit, Within, EndOps, Compile, Completes, Fold, Hold, Last;
    var n := |cs| - 1;
    forall k | 0 <= k < n
      ensures Plain(cs[k])
    {
      assert cs[k] == cs[..n][k];
    }
    forall k | 0 <= k < |cs|
      ensures PinsFit(cs, k)
    {
      if k < n {
        PlainFits(cs, k);
      } else {
        EndingFits(cs, k, ops, poll, clearT);
      }
    }
    WithinNone(cs, s);
    var u := StraightFrom(cs, s, 0, s, n);
    assert cs[0..n] == cs[..n];
    t := EndExec(cs, s, u, ops, poll, clearT);
  }

  // ----- One early exit -----

  /** A case that leaves early if `cond` holds after `ops`. */
  predicate Leaves(c: Cycle, ops: seq<Op>, cond: Cond, rest: seq<Op>) {
    && c.pre == ops + [BrEnd(cond)] + rest && c.jump == Straight && c.post == []
    && (forall op <- ops :: op.Just?) && forall op <- rest :: op.Just?
  }

  /** The same case once it has not. */
  function Through(c: Cycle, ops: seq<Op>, rest: seq<Op>): Cycle {
    C(ops + rest, c.pins)
  }

  lemma ThroughPlain(c: Cycle, ops: seq<Op>, cond: Cond, rest: seq<Op>)
    requires Leaves(c, ops, cond, rest)
    ensures Plain(Through(c, ops, rest))
  {
  }

  lemma LeaveTick(cs: seq<Cycle>, u: Cpu, ops: seq<Op>, cond: Cond, rest: seq<Op>)
    requires 0 <= u.tcu < |cs| && Leaves(cs[u.tcu], ops, cond, rest) && !u.wr
    ensures Plain(Through(cs[u.tcu], ops, rest))
    ensures var x := Micros(ops, Latched(u));
      var v := RefTick(cs, u);
      if Holds(cond, x) then v == Cpu(BranchEnd(x), 0, true, false, u.mem)
      else Hold(v) == Cyc(Through(cs[u.tcu], ops, rest), Hold(u)) && v.tcu == u.tcu + 1
  {
    hide Do, BranchEnd, Holds, Micros;
    var l := Latch(u);
    ThroughPlain(cs[u.tcu], ops, cond, rest);
    RunMicros(ops, l);
    RunOpsAppend(ops + [BrEnd(cond)], rest, Go(l));
    RunOpsAppend(ops, [BrEnd(cond)], Go(l));
    var x := Micros(ops, Latched(u));
    var l1 := l.(core := x);
    RunOne(BrEnd(cond), Go(l1));
    if Holds(cond, x) {
      RetStays(rest, l1.(core := BranchEnd(x), rd := true, tcu := 0));
    } else {
      RunMicros(rest, l1);
      MicrosAppend(ops, rest, Latched(u));
    }
  }

  lemma LeaveFits(cs: seq<Cycle>, k: nat, ops: seq<Op>, cond: Cond, rest: seq<Op>)
    requires k < |cs| && Leaves(cs[k], ops, cond, rest) && !PinsBefore(cs, k).wr
    ensures PinsFit(cs, k)
  {
  }

  /** Case k+1 may leave early; all others but the last are plain. */
  predicate Splits1(cs: seq<Cycle>, k: nat, ops: seq<Op>, cond: Cond, rest: seq<Op>, last: seq<Op>) {
    && k + 1 < |cs| && cs[|cs| - 1] == Ending(last, true, true) && (forall op <- last :: op.Just?)
    && Leaves(cs[k], ops, cond, rest) && !PinsBefore(cs, k).wr
    && (forall c <- cs[..k] :: Plain(c)) && forall c <- cs[k + 1..|cs| - 1] :: Plain(c)
  }

  lemma SplitFits(cs: seq<Cycle>, k: nat, ops: seq<Op>, cond: Cond, rest: seq<Op>, last: seq<Op>)
    requires Splits1(cs, k, ops, cond, rest, last)
    ensures PinsOK(cs) && (forall i :: 0 <= i < k ==> Plain(cs[i])) && forall i :: k < i < |cs| - 1 ==> Plain(cs[i])
  {
    hide Plain, PinsFit, Leaves, EndOps;
    var n := |cs| - 1;
    forall i | 0 <= i < |cs|
      ensures PinsFit(cs, i) && (i != k && i < n ==> Plain(cs[i]))
    {
      if i < k {
        assert cs[i] == cs[..k][i];
        PlainFits(cs, i);
      } else if i == k {
        LeaveFits(cs, k, ops, cond, rest);
      } else if i < n {
        assert cs[i] == cs[k + 1..n][i - k - 1];
        PlainFits(cs, i);
      } else {
        EndingFits(cs, i, last, true, true);
      }
    }
  }

  /** Microcode with one early exit, as emitted: k + 1 cycles if it is taken, all of them if not. */
  lemma SplitExec(cs: seq<Cycle>, s: Cpu, k: nat, ops: seq<Op>, cond: Cond, rest: seq<Op>,
      last: seq<Op>) returns (t: Cpu)
    requires Splits1(cs, k, ops, cond, rest, last) && s.tcu == 0 && s.rd && !s.wr
    ensures Plain(Through(cs[k], ops, rest))
    ensures var h := Fold(cs[..k], Hold(s)); var x := Micros(ops, h.c);
      if Holds(cond, x) then
        Completes(Compile(cs), s, k + 1, t) && t == Cpu(BranchEnd(x), 0, true, false, h.mem)
      else
        && Completes(Compile(cs), s, |cs|, t)
        && t == Last(Fold(cs[k + 1..|cs| - 1], Cyc(Through(cs[k], ops, rest), h)), last, true, true)
  {
    hide Plain, PinsOK, Within, EndOps, Compile, Completes, Fold, Last, Cyc, Holds, Micros, BranchEnd, RefTick, Through;
    var n := |cs| - 1;
    SplitFits(cs, k, ops, cond, rest, last);
    WithinNone(cs, s);
    var u := StraightFrom(cs, s, 0, s, k);
    assert cs[0..k] == cs[..k];
    PinsHeld(cs, s, k, u);
    LeaveTick(cs, u, ops, cond, rest);
    var v := RefTick(cs, u);
    if Holds(cond, Micros(ops, Latched(u))) {
      Completed(cs, s, k, u, v);
      t := v;
    } else {
      WithinMore(cs, s, k, u);
      var w := StraightFrom(cs, s, k + 1, v, n);
      t := EndExec(cs, s, w, last, true, true);
    }
  }

  /** Within an instruction the pins are those the case before asked for. */
  lemma PinsHeld(cs: seq<Cycle>, s: Cpu, n: nat, u: Cpu)
    requires PinsOK(cs) && s.tcu == 0 && s.rd && !s.wr && |cs| > 0 && Within(cs, s, n, u) && u.tcu == n
    ensures n <= |cs| && Pins(u.rd, u.wr) == PinsBefore(cs, n)
  {
    hide RefTick, PinsOK;
    forall k: nat | k < n
      ensures RefTicks(cs, s, k).tcu < |cs|
    {
      assert RefTicks(cs, s, 0) == s;
    }
    PinEncodingSound(cs, s, n);
  }

  // ----- Folds -----

  lemma FoldNone(h: Held)
    ensures Fold([], h) == h
  {
  }

  lemma FoldOne(cs: seq<Cycle>, c: Cycle, h: Held)
    requires (forall x <- cs :: Plain(x)) && Plain(c)
    ensures (forall x <- cs + [c] :: Plain(x)) && Fold(cs + [c], h) == Cyc(c, Fold(cs, h))
  {
    hide Plain, Cyc;
    assert (cs + [c])[..|cs|] == cs;
  }

  lemma {:induction false} FoldAppend(xs: seq<Cycle>, ys: seq<Cycle>, h: Held)
    requires (forall x <- xs :: Plain(x)) && forall y <- ys :: Plain(y)
    ensures (forall x <- xs + ys :: Plain(x)) && Fold(xs + ys, h) == Fold(ys, Fold(xs, h))
    decreases |ys|
  {
    hide Plain, Cyc;
    if ys == [] {
      assert xs + ys == xs;
    } else {
      var n := |ys| - 1;
      FoldAppend(xs, ys[..n], h);
      FoldOne(xs + ys[..n], ys[n], h);
      assert xs + ys == xs + ys[..n] + [ys[n]];
    }
  }
}
