/** What the five block moves leave in memory, for any source, target and length. */
module HucCopies {
  import opened Common
  import opened BitOps
  import opened HucMachine
  import opened HucCertify
  import opened HucMicrocode
  import opened HucText
  import opened HucTMode
  import opened HucBlockMove

  // ----- Addresses as sums -----

  lemma PhysIs(mpr: File8, v: int)
    requires Word16(v) && AlignedBank(mpr[v / 8192])
    ensures Phys(mpr, v) == mpr[v / 8192] + v % 8192
  {
    hide Pow2, BitOr;
    var m := mpr[v / 8192];
    PowValues();
    OrCommutes(m, v % 8192);
    OrDisjoint(v % 8192, m, m / 8192, 13);
  }

  /** A bank with bit 8 set. */
  lemma StackPage(m: int)
    requires AlignedBank(m)
    ensures BitOr(m, 256) == m + 256
  {
    hide Pow2, BitOr;
    PowValues();
    OrCommutes(m, 256);
    OrDisjoint(256, m, m / 8192, 13);
  }

  lemma StackAddrIs(mpr: File8, sp: int)
    requires AlignedBank(mpr[1]) && Fits(Byte, sp)
    ensures StackAddr(mpr, sp) == mpr[1] + 256 + sp
  {
    hide Pow2, BitOr;
    var m := mpr[1];
    PowValues();
    StackPage(m);
    OrCommutes(m + 256, sp);
    OrDisjoint(sp, m + 256, m / 256 + 1, 8);
  }

  /** Eight different banks: every 16-bit address has a byte of its own. */
  predicate Spread(mpr: File8) {
    (forall i :: 0 <= i < 8 ==> AlignedBank(mpr[i])) && (forall i, j :: 0 <= i < j < 8 ==> mpr[i] != mpr[j])
  }

  lemma PhysInjective(mpr: File8, v: int, w: int)
    requires Spread(mpr) && Word16(v) && Word16(w)
    ensures Phys(mpr, v) == Phys(mpr, w) <==> v == w
  {
    hide Phys;
    PhysIs(mpr, v);
    PhysIs(mpr, w);
  }

  // ----- The addresses a copy visits -----

  function SourceAt(k: MoveKind, v: int, i: int): int {
    match k
    case TDD => Plus16(v, -i)
    case TAI => Plus16(v, i % 2)
    case _ => Plus16(v, i)
  }

  function TargetAt(k: MoveKind, v: int, i: int): int {
    match k
    case TDD => Plus16(v, -i)
    case TIN => v
    case TIA => Plus16(v, i % 2)
    case _ => Plus16(v, i)
  }

  lemma {:induction false} CopyLast(k: MoveKind, mpr: File8, x: Copying, n: nat)
    requires Word16(x.src) && Word16(x.dst)
    ensures Copy(k, mpr, x, n + 1) == CopyByte(k, mpr, Copy(k, mpr, x, n))
    decreases n
  {
    hide CopyByte;
    if n == 0 {
      assert Copy(k, mpr, CopyByte(k, mpr, x), 0) == CopyByte(k, mpr, x);
    } else {
      CopyLast(k, mpr, CopyByte(k, mpr, x), n - 1);
    }
  }

  lemma PlusPlus(v: int, a: int, b: int)
    ensures Plus16(Plus16(v, a), b) == Plus16(v, a + b)
  {
  }

  lemma StepsArePlus(v: int, back: bool)
    ensures Inc16(v) == Plus16(v, 1) && Dec16(v) == Plus16(v, -1) && Zig(v, back) == Plus16(v, if back then -1 else 1)
  {
  }

  lemma NextAt(k: MoveKind, v: int, i: int)
    requires i >= 0
    ensures NextSource(k, SourceAt(k, v, i), i % 2 == 1) == SourceAt(k, v, i + 1)
    ensures NextTarget(k, TargetAt(k, v, i), i % 2 == 1) == TargetAt(k, v, i + 1)
  {
    hide Plus16, Inc16, Dec16, Zig;
    var even := i % 2;
    StepsArePlus(SourceAt(k, v, i), even == 1);
    StepsArePlus(TargetAt(k, v, i), even == 1);
    PlusPlus(v, i, 1);
    PlusPlus(v, -i, -1);
    PlusPlus(v, even, if even == 1 then -1 else 1);
  }

  lemma StartAt(k: MoveKind, v: int)
    requires Word16(v)
    ensures SourceAt(k, v, 0) == v && TargetAt(k, v, 0) == v
  {
  }

  /** Byte i of a copy goes from SourceAt(i) to TargetAt(i). */
  lemma {:induction false} CopyAt(k: MoveKind, mpr: File8, x: Copying, n: nat)
    requires Word16(x.src) && Word16(x.dst) && !x.back
    ensures var y := Copy(k, mpr, x, n);
      y.src == SourceAt(k, x.src, n) && y.dst == TargetAt(k, x.dst, n) && y.back == (n % 2 == 1)
    ensures var y := Copy(k, mpr, x, n);
      Copy(k, mpr, x, n + 1).mem == y.mem[Phys(mpr, TargetAt(k, x.dst, n)) := Read(y.mem,
        Phys(mpr, SourceAt(k, x.src, n)))]
  {
    hide Phys, SourceAt, TargetAt, NextSource, NextTarget;
    CopyLast(k, mpr, x, n);
    if n == 0 {
      StartAt(k, x.src);
      StartAt(k, x.dst);
    } else {
      CopyAt(k, mpr, x, n - 1);
      CopyLast(k, mpr, x, n - 1);
      NextAt(k, x.src, n - 1);
      NextAt(k, x.dst, n - 1);
    }
  }

  // ----- Where every byte comes from -----

  /** The physical address whose byte before a copy of n bytes is at `addr` after it, by the last write to `addr`. */
  function Trace(k: MoveKind, mpr: File8, src: int, dst: int, n: nat, addr: int): int
    requires Word16(src) && Word16(dst)
  {
    if n == 0 then addr
    else Trace(k, mpr, src, dst, n - 1,
               if addr == Phys(mpr, TargetAt(k, dst, n - 1)) then Phys(mpr, SourceAt(k, src, n - 1)) else addr)
  }

  /** For any mapping, banks used twice included, and any overlap. */
  lemma {:induction false} CopyTraces(k: MoveKind, mpr: File8, x: Copying, n: nat, addr: int)
    requires Word16(x.src) && Word16(x.dst) && !x.back
    ensures Read(Copy(k, mpr, x, n).mem, addr) == Read(x.mem, Trace(k, mpr, x.src, x.dst, n, addr))
    decreases n
  {
    hide Phys, TargetAt, SourceAt, CopyByte;
    if n > 0 {
      var m := n - 1;
      CopyAt(k, mpr, x, m);
      CopyTraces(k, mpr, x, m,
                 if addr == Phys(mpr, TargetAt(k, x.dst, m)) then Phys(mpr, SourceAt(k, x.src, m)) else addr);
    }
  }

  // ----- Registers come back -----

  /** None of the n bytes goes to physical address `addr`. */
  predicate Avoids(k: MoveKind, mpr: File8, dst: int, n: nat, addr: int)
    requires Word16(dst)
  {
    forall i: nat :: i < n ==> Phys(mpr, TargetAt(k, dst, i)) != addr
  }

  lemma {:induction false} TraceStays(k: MoveKind, mpr: File8, src: int, dst: int, n: nat, addr: int)
    requires Word16(src) && Word16(dst) && Avoids(k, mpr, dst, n, addr)
    ensures Trace(k, mpr, src, dst, n, addr) == addr
  {
    hide Phys, TargetAt, SourceAt;
    if n > 0 {
      TraceStays(k, mpr, src, dst, n - 1, addr);
    }
  }

  lemma SlotsApart(r: Regs)
    requires SaneRegs(AT_BOUNDARY, r)
    ensures Slot1(r) != Slot2(r) && Slot2(r) != Slot3(r) && Slot1(r) != Slot3(r)
  {
    hide StackAddr;
    StackAddrIs(r.mpr, r.sp);
    StackAddrIs(r.mpr, Dec8(r.sp));
    StackAddrIs(r.mpr, Dec8(Dec8(r.sp)));
  }

  /** Where the byte that is at `addr` after the block move at `s` was before it. */
  function From(k: MoveKind, s: Cpu, addr: int): int
    requires SaneRegs(AT_BOUNDARY, s.core.r)
  {
    Trace(k, s.core.r.mpr, FirstByte(s).src, FirstByte(s).dst, Length(s), addr)
  }

  /** Each of the three stack bytes gets, from wherever the move takes it, the byte it had. */
  predicate StackSurvives(k: MoveKind, s: Cpu)
    requires SaneRegs(AT_BOUNDARY, s.core.r)
  {
    var r, m := s.core.r, Pushed(s);
    && Read(m, From(k, s, Slot1(r))) == r.y
    && Read(m, From(k, s, Slot2(r))) == r.a
    && Read(m, From(k, s, Slot3(r))) == r.x
  }

  /** No byte of the move at `s` lands on one of the three stack bytes it keeps registers in. */
  predicate SparesStack(k: MoveKind, s: Cpu)
    requires SaneRegs(AT_BOUNDARY, s.core.r)
  {
    var r, dst, n := s.core.r, FirstByte(s).dst, Length(s);
    Avoids(k, r.mpr, dst, n, Slot1(r)) && Avoids(k, r.mpr, dst, n, Slot2(r)) && Avoids(k, r.mpr, dst, n, Slot3(r))
  }

  lemma SparedSurvives(k: MoveKind, s: Cpu)
    requires SaneRegs(AT_BOUNDARY, s.core.r) && SparesStack(k, s)
    ensures StackSurvives(k, s)
  {
    hide FirstByte, Length, StackAddr, Trace, Avoids, Pushed;
    var r, x, n := s.core.r, FirstByte(s), Length(s);
    PushedSlots(s);
    TraceStays(k, r.mpr, x.src, x.dst, n, Slot1(r));
    TraceStays(k, r.mpr, x.src, x.dst, n, Slot2(r));
    TraceStays(k, r.mpr, x.src, x.dst, n, Slot3(r));
  }

  /**
   A, X and Y come back if and only if the move leaves the three stack bytes as they were, and then all
   that changes outside memory is PC, which is behind the operands, BM and T. For any mapping.
   */
  lemma BlockRestores(k: MoveKind, s: Cpu) returns (t: Cpu)
    requires Ready(s)
    ensures Completes(Compile(BlockCode(k)), s, 17 + 6 * Length(s), t)
    ensures var r, m := s.core.r, Pushed(s);
      && t.core.r.y == Read(m, From(k, s, Slot1(r))) && t.core.r.a == Read(m, From(k, s, Slot2(r)))
      && t.core.r.x == Read(m, From(k, s, Slot3(r)))
    ensures t.core.r.a == s.core.r.a && t.core.r.x == s.core.r.x && t.core.r.y == s.core.r.y <==> StackSurvives(k, s)
    ensures View(t.core) == View(Ended(s.core.(bm := false, r := s.core.r.(pc := Plus16(s.core.r.pc, 6)))))
      <==> StackSurvives(k, s)
    ensures SparesStack(k, s) ==> StackSurvives(k, s)
  {
    hide Compile, BlockCode, Completes, FirstByte, Length, Copy, StackAddr, Avoids, Fetch, Trace, SparesStack;
    t := BlockExec(k, s);
    var r, x, n := s.core.r, FirstByte(s), Length(s);
    PushedSlots(s);
    CopyTraces(k, r.mpr, x, n, Slot1(r));
    CopyTraces(k, r.mpr, x, n, Slot2(r));
    CopyTraces(k, r.mpr, x, n, Slot3(r));
    EndedPulled(s, t);
    if SparesStack(k, s) {
      SparedSurvives(k, s);
    }
  }

  lemma EndedPulled(s: Cpu, t: Cpu)
    requires SaneRegs(AT_BOUNDARY, s.core.r)
    requires SameShell(t.core, Ended(Finished(s, t.mem))) && t.core.addr == Ended(Finished(s, t.mem)).addr
    ensures var r, u := s.core.r, t.core.r;
      && u.y == Read(t.mem, Slot1(r)) && u.a == Read(t.mem, Slot2(r)) && u.x == Read(t.mem, Slot3(r))
      && (View(t.core) == View(Ended(s.core.(bm := false, r := r.(pc := Plus16(r.pc, 6)))))
          <==> u.y == r.y && u.a == r.a && u.x == r.x)
  {
    hide StackAddr, Phys;
  }

  lemma PushedSlots(s: Cpu)
    requires SaneRegs(AT_BOUNDARY, s.core.r)
    ensures !FirstByte(s).back && FirstByte(s).mem == Pushed(s)
    ensures var r, m := s.core.r, Pushed(s);
      Read(m, Slot1(r)) == r.y && Read(m, Slot2(r)) == r.a && Read(m, Slot3(r)) == r.x
  {
    hide StackAddr, WordAt;
    SlotsApart(s.core.r);
  }

  // ----- What ends up where -----

  /** The byte at logical address v. */
  function Look(mpr: File8, mem: map<int, byte>, v: int): byte
    requires Word16(v)
  {
    Read(mem, Phys(mpr, v))
  }

  /** The same for 16-bit addresses, which only the operands enter. */
  function Back(k: MoveKind, src: int, dst: int, n: nat, v: int): int {
    if n == 0 then v
    else Back(k, src, dst, n - 1, if v == TargetAt(k, dst, n - 1) then SourceAt(k, src, n - 1) else v)
  }

  lemma AtIsWord(k: MoveKind, v: int, i: int)
    requires Word16(v)
    ensures Word16(SourceAt(k, v, i)) && Word16(TargetAt(k, v, i))
  {
  }

  /** With a byte of its own for every 16-bit address, bytes move as addresses do. */
  lemma {:induction false} TraceIsBack(k: MoveKind, mpr: File8, src: int, dst: int, n: nat, v: int)
    requires Spread(mpr) && Word16(src) && Word16(dst) && Word16(v)
    ensures Word16(Back(k, src, dst, n, v))
    ensures Trace(k, mpr, src, dst, n, Phys(mpr, v)) == Phys(mpr, Back(k, src, dst, n, v))
    decreases n
  {
    hide Phys, TargetAt, SourceAt, Spread;
    if n > 0 {
      AtIsWord(k, dst, n - 1);
      AtIsWord(k, src, n - 1);
      PhysInjective(mpr, v, TargetAt(k, dst, n - 1));
      TraceIsBack(k, mpr, src, dst, n - 1, if v == TargetAt(k, dst, n - 1) then SourceAt(k, src, n - 1) else v);
    }
  }

  /** How far v is from w, in the direction k moves. */
  function Ahead(k: MoveKind, v: int, w: int): nat {
    (if k == TDD then w - v else v - w) % 65536
  }

  /** A copy onto a target d bytes ahead of its source repeats the first d bytes. */
  function Period(i: nat, d: nat): nat {
    if d == 0 then i else i % d
  }

  lemma PeriodStep(i: nat, d: nat)
    requires 0 < d
    ensures i >= d ==> Period(i, d) == Period(i - d, d)
    ensures i < d ==> Period(i, d) == i
  {
    if i >= d {
      assert i - d == (i / d - 1) * d + i % d;
      EuclidUnique(i - d, d, i / d - 1, i % d);
    } else {
      EuclidUnique(i, d, 0, i);
    }
  }

  lemma Mod16(x: int)
    ensures 0 <= x < 65536 ==> x % 65536 == x
    ensures 65536 <= x < 131072 ==> x % 65536 == x - 65536
    ensures -65536 <= x < 0 ==> x % 65536 == x + 65536
  {
  }

  lemma Between(v: int, w: int, m: nat)
    requires Word16(v) && Word16(w) && m < 65536
    ensures v == Plus16(w, m) <==> (v - w) % 65536 == m
    ensures v == Plus16(w, 0 - m) <==> (w - v) % 65536 == m
  {
    Mod16(w + m);
    Mod16(v - w);
    Mod16(w - m);
    Mod16(w - v);
  }

  lemma ModInside(a: int, b: int)
    ensures (a % 65536 - b) % 65536 == (a - b) % 65536
    ensures (b - a % 65536) % 65536 == (b - a) % 65536
  {
    var q := a / 65536;
    assert a % 65536 == a - 65536 * q;
  }

  lemma GapUp(src: int, dst: int, m: int)
    ensures (Plus16(src, m) - dst) % 65536 == (m - (dst - src) % 65536) % 65536
  {
    ModInside(src + m, dst);
    ModInside(dst - src, m);
  }

  lemma GapDown(src: int, dst: int, m: int)
    ensures (dst - Plus16(src, 0 - m)) % 65536 == (m - (src - dst) % 65536) % 65536
  {
    ModInside(src - m, dst);
    ModInside(src - dst, m);
  }

  /** Where, among the targets, the address of byte m lies. */
  lemma Distances(k: MoveKind, src: int, dst: int, m: nat, v: int)
    requires (k == TII || k == TDD) && Word16(src) && Word16(dst) && Word16(v) && m < 65536
    ensures Word16(SourceAt(k, src, m)) && Word16(TargetAt(k, dst, m))
    ensures v == TargetAt(k, dst, m) <==> Ahead(k, v, dst) == m
    ensures Ahead(k, SourceAt(k, src, m), dst) == (m - Ahead(k, dst, src)) % 65536
    ensures 0 <= Ahead(k, dst, src) < 65536
  {
    hide Plus16;
    Between(v, dst, m);
    GapUp(src, dst, m);
    GapDown(src, dst, m);
    Plus16IsWord(src, m);
    Plus16IsWord(src, 0 - m);
    Plus16IsWord(dst, m);
    Plus16IsWord(dst, 0 - m);
  }

  lemma Plus16IsWord(v: int, i: int)
    ensures Word16(Plus16(v, i))
  {
  }

  /**
   TII and TDD, wrapping around 64K: byte i of the target is byte i of the source as it was, unless
   the target lies d < n bytes ahead of the source; then it is byte i mod d. Nothing else changes.
   */
  lemma {:induction false} LinearMove(k: MoveKind, src: int, dst: int, n: nat, v: int)
    requires (k == TII || k == TDD) && n <= 65536 && Word16(src) && Word16(dst) && Word16(v)
    ensures var i, d := Ahead(k, v, dst), Ahead(k, dst, src);
      Back(k, src, dst, n, v) == if i < n then SourceAt(k, src, Period(i, d)) else v
    decreases n
  {
    hide SourceAt, TargetAt, Ahead, Period;
    if n > 0 {
      var m := n - 1;
      Distances(k, src, dst, m, v);
      var i, d := Ahead(k, v, dst), Ahead(k, dst, src);
      if i == m {
        LinearMove(k, src, dst, m, SourceAt(k, src, m));
        if d > 0 {
          PeriodStep(m, d);
        } else {
          PeriodZero(m);
        }
      } else {
        LinearMove(k, src, dst, m, v);
      }
    }
  }

  lemma PeriodZero(m: nat)
    ensures Period(m, 0) == m
  {
  }

  /** The last i < n of the parity of p, where p is 0 or 1 and below n. */
  function LastLike(n: nat, p: nat): (m: nat)
    requires p < 2 && p < n
    ensures m < n && m % 2 == p && n <= m + 2
  {
    if (n - 1) % 2 == p then n - 1 else n - 2
  }

  /**
   The address whose byte before the move is at v after it, for any overlap. TAI whose target runs over
   its source at an odd distance copies the second byte from there on, or the first if it starts on it.
   */
  function Origin(k: MoveKind, src: int, dst: int, n: nat, v: int): int
    decreases n
  {
    match k
    case TIN => if v == dst && n > 0 then Plus16(src, if n > 1 &&
      Plus16(src, n - 1) == dst then n - 2 else n - 1) else v
    case TIA =>
      var i := Ahead(k, v, dst);
      if i < 2 && i < n then Origin(TIA, src, dst, LastLike(n, i), Plus16(src, LastLike(n, i))) else v
    case TAI =>
      var i, e := Ahead(k, v, dst), Ahead(k, src, dst);
      if i >= n then v
      else if e == 65535 then src
      else Plus16(src, if e % 2 == 1 && i > e then 1 else i % 2)
    case _ =>
      var i := Ahead(k, v, dst);
      if i < n then SourceAt(k, src, Period(i, Ahead(k, dst, src))) else v
  }

  lemma {:induction false} FixedTarget(src: int, dst: int, n: nat, v: int)
    requires n <= 65536 && Word16(src) && Word16(dst) && Word16(v)
    ensures Back(TIN, src, dst, n, v) == Origin(TIN, src, dst, n, v)
    decreases n
  {
    if n > 0 {
      FixedTarget(src, dst, n - 1, if v == dst then Plus16(src, n - 1) else v);
    }
  }

  lemma PairIs(v: int, dst: int, p: int)
    requires Word16(v) && Word16(dst) && 0 <= p < 2
    ensures v == Plus16(dst, p) <==> Ahead(TIA, v, dst) == p
  {
  }

  /** TIA: each of the two ports ends with the last byte sent to it. */
  lemma {:induction false} PairTarget(src: int, dst: int, n: nat, v: int)
    requires n <= 65536 && Word16(src) && Word16(dst) && Word16(v)
    ensures Back(TIA, src, dst, n, v) == Origin(TIA, src, dst, n, v)
    decreases n
  {
    hide Plus16, Ahead;
    if n > 0 {
      var m := n - 1;
      PairIs(v, dst, 0);
      PairIs(v, dst, 1);
      Plus16IsWord(src, m);
      PairTarget(src, dst, m, if v == Plus16(dst, m % 2) then Plus16(src, m) else v);
    }
  }

  lemma AlternateAt(src: int, dst: int, i: int)
    ensures SourceAt(TAI, src, i) == Plus16(src, i % 2) && TargetAt(TAI, dst, i) == Plus16(dst, i)
  {
  }

  lemma AlternateSource(src: int, dst: int, p: int)
    requires Word16(src) && Word16(dst) && 0 <= p < 2
    ensures Ahead(TAI, Plus16(src, p), dst) == (Ahead(TAI, src, dst) + p) % 65536 && 0 <= Ahead(TAI, src, dst) < 65536
    ensures Plus16(src, 0) == src
  {
    ModInside(src + p, dst);
    ModInside(src - dst, -p);
  }

  /** TAI: two bytes alternate, until the target runs over them. */
  lemma {:induction false} PairSource(src: int, dst: int, n: nat, v: int)
    requires n <= 65536 && Word16(src) && Word16(dst) && Word16(v)
    ensures Back(TAI, src, dst, n, v) == Origin(TAI, src, dst, n, v)
    decreases n
  {
    hide Plus16;
    if n > 0 {
      var m := n - 1;
      AlternateAt(src, dst, m);
      Between(v, dst, m);
      Plus16IsWord(src, m % 2);
      AlternateSource(src, dst, m % 2);
      hide SourceAt, TargetAt, Period, Ahead;
      AheadIs(v, dst);
      PairSource(src, dst, m, if v == Plus16(dst, m) then Plus16(src, m % 2) else v);
    }
  }

  lemma AheadIs(v: int, w: int)
    ensures Ahead(TAI, v, w) == (v - w) % 65536
  {
  }

  lemma OriginIsBack(k: MoveKind, src: int, dst: int, n: nat, v: int)
    requires n <= 65536 && Word16(src) && Word16(dst) && Word16(v)
    ensures Back(k, src, dst, n, v) == Origin(k, src, dst, n, v)
  {
    hide Ahead, Period, SourceAt, Plus16;
    match k
    case TIN => FixedTarget(src, dst, n, v);
    case TIA => PairTarget(src, dst, n, v);
    case TAI => PairSource(src, dst, n, v);
    case _ => LinearMove(k, src, dst, n, v);
  }

  /** The pair of addresses TIA writes, or TAI reads, lies outside their other range. */
  predicate Apart(k: MoveKind, src: int, dst: int, n: nat) {
    && (k == TIA ==> (dst - src) % 65536 >= n && (dst + 1 - src) % 65536 >= n)
    && (k == TAI ==> (src - dst) % 65536 >= n && (src + 1 - dst) % 65536 >= n)
  }

  /** Without overlap TIA leaves the last byte of each parity, and TAI alternates all the way. */
  lemma ApartPairs(src: int, dst: int, n: nat, v: int)
    requires 0 < n <= 65536 && Word16(src) && Word16(dst) && Word16(v)
    ensures var i := Ahead(TIA, v, dst);
      Apart(TIA, src, dst, n) && i < 2 && i < n ==> Origin(TIA, src, dst, n, v) == Plus16(src, LastLike(n, i))
    ensures var i := Ahead(TAI, v, dst);
      Apart(TAI, src, dst, n) && i < n ==> Origin(TAI, src, dst, n, v) == Plus16(src, i % 2)
  {
    hide Plus16, LastLike, Period;
    var i := Ahead(TIA, v, dst);
    if Apart(TIA, src, dst, n) && i < 2 && i < n {
      var m := LastLike(n, i);
      var w := Plus16(src, m);
      Plus16IsWord(src, m);
      Unlike(src, dst, m, n);
      Unlike(src, dst + 1, m, n);
      PairIs(w, dst, 0);
      PairIs(w, dst, 1);
      PairIsPlus(dst);
    }
  }

  lemma Unlike(v: int, w: int, m: nat, n: nat)
    requires m < n <= 65536 && (w - v) % 65536 >= n && Word16(v)
    ensures Plus16(v, m) != w % 65536
  {
    hide Plus16;
    ModInside(w, v);
    Between(w % 65536, v, m);
  }

  lemma PairIsPlus(v: int)
    requires Word16(v)
    ensures Plus16(v, 0) == v && Plus16(v, 1) == (v + 1) % 65536
  {
  }

  /**
   A block move as emitted, for any mapping and any overlap: every byte of memory comes from where the
   last write to it took it. With all eight banks different that is `Origin`: TII and TDD copy (memmove,
   unless the target is 1 to n - 1 bytes ahead of the source in the direction of travel), TIN leaves the
   last byte, TIA the last byte for each of two ports, TAI alternates between two. All else is kept.
   */
  lemma BlockMoves(k: MoveKind, s: Cpu) returns (t: Cpu)
    requires Ready(s)
    ensures Completes(Compile(BlockCode(k)), s, 17 + 6 * Length(s), t)
    ensures forall addr: int :: Read(t.mem, addr) == Read(Pushed(s), From(k, s, addr))
    ensures Spread(s.core.r.mpr) ==> forall v | Word16(v) ::
      var o := Origin(k, FirstByte(s).src, FirstByte(s).dst, Length(s), v);
      Word16(o) && Look(s.core.r.mpr, t.mem, v) == Look(s.core.r.mpr, Pushed(s), o)
  {
    hide Copy, Spread, Origin, Length, BlockCode, Compile, Completes, Pushed, WordAt, Ended, Trace, FirstByte, Phys,
      StackAddr;
    t := BlockExec(k, s);
    LoopBytes(s);
    PushedSlots(s);
    var x, n := FirstByte(s), Length(s);
    forall addr: int
      ensures Read(t.mem, addr) == Read(Pushed(s), From(k, s, addr))
    {
      CopyTraces(k, s.core.r.mpr, x, n, addr);
    }
    if Spread(s.core.r.mpr) {
      forall v | Word16(v)
        ensures var o := Origin(k, x.src, x.dst, n, v);
          Word16(o) && Look(s.core.r.mpr, t.mem, v) == Look(s.core.r.mpr, Pushed(s), o)
      {
        TraceIsBack(k, s.core.r.mpr, x.src, x.dst, n, v);
        OriginIsBack(k, x.src, x.dst, n, v);
      }
    }
  }

  /** The stack byte S points at, as a 16-bit address. */
  function StackTop(sp: int): (v: int)
    requires Fits(Byte, sp)
    ensures Word16(v)
  {
    0x2100 + sp
  }

  lemma SlotIs(mpr: File8, sp: int)
    requires AlignedBank(mpr[1]) && Fits(Byte, sp)
    ensures StackAddr(mpr, sp) == Phys(mpr, StackTop(sp))
  {
    hide StackAddr, Phys;
    StackAddrIs(mpr, sp);
    PhysIs(mpr, StackTop(sp));
  }

  /** With all banks different, the bytes a caller would look at to know whether A, X and Y come back. */
  lemma SurvivesAt(k: MoveKind, s: Cpu)
    requires Ready(s) && Spread(s.core.r.mpr)
    ensures var r, x, n := s.core.r, FirstByte(s), Length(s);
      var o1, o2, o3 := Origin(k, x.src, x.dst, n, StackTop(r.sp)),
        Origin(k, x.src, x.dst, n, StackTop(Dec8(r.sp))),
        Origin(k, x.src, x.dst, n, StackTop(Dec8(Dec8(r.sp))));
      && Word16(o1) && Word16(o2) && Word16(o3)
      && (StackSurvives(k, s) <==>
          Look(r.mpr, Pushed(s), o1) == r.y && Look(r.mpr, Pushed(s), o2) == r.a && Look(r.mpr, Pushed(s), o3) == r.x)
  {
    hide Origin, Length, Pushed, WordAt, Trace, FirstByte, Phys, StackAddr;
    LoopBytes(s);
    SlotBack(k, s, s.core.r.sp);
    SlotBack(k, s, Dec8(s.core.r.sp));
    SlotBack(k, s, Dec8(Dec8(s.core.r.sp)));
  }

  lemma SlotBack(k: MoveKind, s: Cpu, sp: int)
    requires Ready(s) && Spread(s.core.r.mpr) && Fits(Byte, sp)
    ensures var o := Origin(k, FirstByte(s).src, FirstByte(s).dst, Length(s), StackTop(sp));
      Word16(o) && From(k, s, StackAddr(s.core.r.mpr, sp)) == Phys(s.core.r.mpr, o)
  {
    hide Origin, Length, Trace, FirstByte, Phys, StackAddr, Spread;
    LoopBytes(s);
    var x, n := FirstByte(s), Length(s);
    SlotIs(s.core.r.mpr, sp);
    TraceIsBack(k, s.core.r.mpr, x.src, x.dst, n, StackTop(sp));
    OriginIsBack(k, x.src, x.dst, n, StackTop(sp));
  }

  /** At a boundary, every bank 0, the registers 0 but for PC. */
  function At(pc: int, mem: map<int, byte>): Cpu {
    var zeros: File8 := [0, 0, 0, 0, 0, 0, 0, 0];
    var p := Flags(false, false, false, false, false, false, false, false);
    var off := Lines(false, false, false);
    Cpu(Core(Regs(0, 0, 0, 0, pc, 0, zeros, zeros, 0, p), 0, Dec16(pc), false, Irq(off, off, off, false), 12, false,
      false),
        0, true, false, mem)
  }

  lemma OrWithNothing(v: nat)
    ensures BitOr(v, 0) == v && BitOr(0, v) == v
  {
  }

  /** TII of the 5 at 0x1000 to the stack byte that keeps Y: Y was 0 and comes back as 5. */
  lemma BlockLosesY() returns (t: Cpu)
    ensures var s := At(0x10, map[0x11 := 0x10, 0x13 := 1, 0x14 := 1, 0x1000 := 5]);
      Ready(s) && s.core.r.y == 0 && Completes(Compile(BlockCode(TII)), s, 23, t) && t.core.r.y == 5
  {
    hide Compile, Completes, BlockCode, BitOr, Trace;
    var s := At(0x10, map[0x11 := 0x10, 0x13 := 1, 0x14 := 1, 0x1000 := 5]);
    OneByteMove(s.mem);
    t := BlockRestores(TII, s);
    TraceOne(s.core.r.mpr, 0x1000, 0x100);
    OrWithNothing(0x100);
    OrWithNothing(0x1000);
  }

  lemma TraceOne(mpr: File8, src: int, dst: int)
    requires Word16(src) && Word16(dst)
    ensures Trace(TII, mpr, src, dst, 1, Phys(mpr, dst)) == Phys(mpr, src)
  {
    hide Phys;
    assert Trace(TII, mpr, src, dst, 0, Phys(mpr, src)) == Phys(mpr, src);
  }

  /** The operands of that TII, which lie below its stack bytes. */
  lemma OneByteMove(mem: map<int, byte>)
    requires mem == map[0x11 := 0x10, 0x13 := 1, 0x14 := 1, 0x1000 := 5]
    ensures var s := At(0x10, mem);
      && Ready(s) && FirstByte(s).src == 0x1000 && FirstByte(s).dst == 0x100 && Length(s) == 1
      && Slot1(s.core.r) == 0x100 && Read(Pushed(s), 0x1000) == 5
  {
    hide BitOr;
    var s := At(0x10, mem);
    OrWithNothing(0x100);
    OrWithNothing(0xFE);
    OrWithNothing(0xFF);
    forall v | 0 <= v < 8192
      ensures Phys(s.core.r.mpr, v) == v
    {
      OrWithNothing(v);
    }
    SlotsAre(s);
    WordIs(0, 0x10);
    WordIs(0, 1);
    WordIs(1, 0);
  }

  lemma SlotsAre(s: Cpu)
    requires s == At(s.core.r.pc, s.mem)
    ensures Slot1(s.core.r) == 0x100 && Slot2(s.core.r) == 0x1FF && Slot3(s.core.r) == 0x1FE
  {
    hide StackAddr;
    StackAddrIs(s.core.r.mpr, 0);
    StackAddrIs(s.core.r.mpr, 0xFF);
    StackAddrIs(s.core.r.mpr, 0xFE);
  }

  /** When TII and TDD are memmove: the target is not inside the source, ahead of its start. */
  lemma IsMemmove(k: MoveKind, src: int, dst: int, n: nat)
    requires (k == TII || k == TDD) && Word16(src) && Word16(dst) && 0 < n <= 65536
    ensures (forall i: nat :: i < n ==> Origin(k, src, dst, n, TargetAt(k, dst, i)) == SourceAt(k, src, i))
       <==> (Ahead(k, dst, src) == 0 || Ahead(k, dst, src) >= n)
  {
    hide SourceAt, TargetAt, Ahead, Period;
    var d := Ahead(k, dst, src);
    forall i: nat | i < n
      ensures Origin(k, src, dst, n, TargetAt(k, dst, i)) == SourceAt(k, src, Period(i, d))
    {
      Distances(k, src, dst, i, TargetIsWord(k, dst, i));
    }
    if 0 < d < n {
      PeriodStep(d, d);
      PeriodStep(0, d);
      SourcesDiffer(k, src, d);
      assert Origin(k, src, dst, n, TargetAt(k, dst, d)) != SourceAt(k, src, d);
    } else {
      forall i: nat | i < n
        ensures Period(i, d) == i
      {
        PeriodZero(i);
        if d > 0 {
          PeriodStep(i, d);
        }
      }
    }
  }

  function TargetIsWord(k: MoveKind, dst: int, i: nat): (v: int)
    requires Word16(dst)
    ensures Word16(v) && v == TargetAt(k, dst, i)
  {
    TargetAt(k, dst, i)
  }

  lemma SourcesDiffer(k: MoveKind, src: int, d: nat)
    requires (k == TII || k == TDD) && Word16(src) && 0 < d < 65536
    ensures SourceAt(k, src, 0) != SourceAt(k, src, d)
  {
  }
}
