/**
 A certificate for microcode: a size (8, 16 or 32 bits) for D, PC, TA and each TR at the start of
 every case, checked statement by statement. Certified microcode, run by the driver from any
 boundary, never indexes MPR out of range, never misses a case, never raises RD and WR together,
 and reaches the next boundary.
 */
module HucCertify {
  import opened Common
  import opened BitOps
  import opened HucMachine
  import opened HucMicrocode

  datatype Size = Byte | Half | Full

  predicate Fits(z: Size, v: int) {
    match z
    case Byte => 0 <= v < 256
    case Half => 0 <= v < 65536
    case Full => 0 <= v < 0x1_0000_0000
  }

  type Size8 = s: seq<Size> | |s| == 8 witness [Full, Full, Full, Full, Full, Full, Full, Full]

  datatype Abs = Abs(d: Size, pc: Size, ta: Size, tr: Size8)

  const ANY8: Size8 := [Full, Full, Full, Full, Full, Full, Full, Full]
  const AT_BOUNDARY := Abs(Full, Half, Full, ANY8)

  predicate SaneRegs(ab: Abs, r: Regs) {
    && Fits(Byte, r.a) && Fits(Byte, r.x) && Fits(Byte, r.y) && Fits(Byte, r.sp) && Fits(Byte, r.mpl)
    && Fits(ab.pc, r.pc) && Fits(ab.ta, r.ta)
    && (forall i :: 0 <= i < 8 ==> Fits(ab.tr[i], r.tr[i]))
    && (forall i :: 0 <= i < 8 ==> AlignedBank(r.mpr[i]))
  }

  /** The address pins as the driver asserts them after every cycle. */
  predicate OnBus(s: Core) {
    0 <= s.addr < 0x200000
  }

  /**
   Register ranges, an address on the bus, no undefined behaviour so far, and a pending interrupt has
   a polled line.
   */
  predicate Sane(ab: Abs, wraps: bool, s: Core) {
    && SaneRegs(ab, s.r)
    && Fits(ab.d, s.d) && OnBus(s)
    && (s.fault ==> wraps)
    && (s.irq.pending ==> AnyLine(s.irq.enabled, s.irq.polled))
  }

  // ----- Checking one statement -----

  function SizeOfReg(ab: Abs, g: Reg): Size {
    match g
    case RPC => ab.pc
    case RTA => ab.ta
    case RTR(i) => ab.tr[i]
    case _ => Byte
  }

  function SizeOf(ab: Abs, e: Src): Option<Size> {
    match e
    case Reg(g) => Some(SizeOfReg(ab, g))
    case Data => Some(ab.d)
    case Num(n) =>
      if 0 <= n < 256 then Some(Byte) else if 0 <= n < 65536 then Some(Half) else None
    case Hi(g) => if SizeOfReg(ab, g).Full? then None else Some(Byte)
    case Lo(_) => Some(Byte)
    case Status(_, _) => Some(Byte)
    case _ => None
  }

  predicate IsByte(ab: Abs, e: Src) {
    SizeOf(ab, e) == Some(Byte)
  }

  /** `wraps` admits a PC beyond 16 bits, which BSR can produce. */
  function Put(ab: Abs, g: Reg, z: Size, wraps: bool): Option<Abs> {
    match g
    case RPC => if z.Full? && !wraps then None else Some(ab.(pc := z))
    case RTA => Some(ab.(ta := z))
    case RTR(i) => Some(ab.(tr := ab.tr[i := z]))
    case _ => if z.Byte? then Some(ab) else None
  }

  function Widest(w: Width): Size {
    match w
    case W8 => Byte
    case W16 => Half
    case W32 => Full
  }

  function When(ok: bool, ab: Option<Abs>): Option<Abs> {
    if ok then ab else None
  }

  function AbsDo(m: Micro, ab: Abs, wraps: bool): Option<Abs> {
    match m
    case AddrMapped(v) =>
      var z := SizeOf(ab, v);
      When(z.Some? && (!z.value.Full? || wraps), Some(ab))
    case AddrPage1(v) => When(IsByte(ab, v), Some(ab))
    case AddrFixed(n) => When(n < 0x200000, Some(ab))
    case AddrNext => None
    case Out(v) =>
      var z := SizeOf(ab, v);
      if z.Some? then Some(ab.(d := z.value)) else None
    case Move(dst, v) =>
      var z := SizeOf(ab, v);
      Put(ab, dst, if z.Some? then z.value else Full, wraps)
    case Sum(dst, l, r, w) => Put(ab, dst, Widest(w), wraps)
    case Join(dst, lo, hi) => When(IsByte(ab, lo) && IsByte(ab, hi), Put(ab, dst, Half, wraps))
    case Toggle(dst) => When(IsByte(ab, Reg(dst)), Some(ab))
    case Zigzag(dst) => Put(ab, dst, Half, wraps)
    case Alu(f, dst, v) => When(IsByte(ab, v), if Stores(f) then Put(ab, dst, Byte, wraps) else Some(ab))
    case TestMask(l, m) => When(IsByte(ab, l) && IsByte(ab, m), Some(ab))
    case SetBit(dst, k) => When(IsByte(ab, Reg(dst)), Some(ab))
    case ResetBit(dst, k) => When(IsByte(ab, Reg(dst)), Some(ab))
    case LoadStatus => When(ab.d.Byte?, Some(ab))
    case StoreBanks => When(ab.ta.Byte?, Some(ab))
    case LoadBanks => When(ab.tr[0].Byte?, Some(ab))
    case _ => Some(ab)
  }

  function AbsOp(op: Op, ab: Abs, wr: bool, wraps: bool): Option<Abs> {
    match op
    case Just(m) => AbsDo(m, ab, wraps)
    case BrEnd(c) => When(!wr && (!ab.pc.Full? || wraps), Some(ab))
    case _ => None
  }

  function AbsOps(ops: seq<Op>, ab: Option<Abs>, wr: bool, wraps: bool): Option<Abs> {
    if |ops| == 0 then ab
    else
      var r := AbsOps(ops[..|ops| - 1], ab, wr, wraps);
      if r.None? then None else AbsOp(ops[|ops| - 1], r.value, wr, wraps)
  }

  // ----- Soundness of the check -----

  lemma SizeOfSound(e: Src, ab: Abs, s: Core)
    requires SaneRegs(ab, s.r) && Fits(ab.d, s.d) && SizeOf(ab, e).Some?
    ensures Fits(SizeOf(ab, e).value, Eval(s, e))
  {
  }

  lemma PutSound(ab: Abs, r: Regs, g: Reg, z: Size, v: int, wraps: bool)
    requires SaneRegs(ab, r) && Fits(z, v) && Put(ab, g, z, wraps).Some?
    ensures SaneRegs(Put(ab, g, z, wraps).value, Set(r, g, v))
    ensures Put(ab, g, z, wraps).value.d == ab.d
  {
  }

  lemma WordIs(lo: int, hi: int)
    requires Fits(Byte, lo) && Fits(Byte, hi)
    ensures Word(lo, hi) == lo + 256 * hi
  {
    assert Pow2(8) == 256;
    OrDisjoint(lo, 256 * hi, hi, 8);
  }

  lemma AluIsByte(f: AluOp, r: Regs, v: byte)
    requires Fits(Byte, r.a)
    ensures Fits(Byte, AluEval(f, r, v).res) && Fits(Byte, AluEval(f, r, v).src)
  {
    hide BitOr, BitAnd, BitXor, AddBinary, AddDecimal, SubDecimal, NZ, Bit7, Pow2;
    BitsAreBytes(r.a, v);
    BitsAreBytes(v, r.a);
    BitsAreBytes(255 - r.a, v);
    SumIsByte(r.a, v, r.p);
    SumIsByte(r.a, 255 - v, r.p);
  }

  lemma BitsAreBytes(a: byte, b: byte)
    ensures Fits(Byte, BitOr(a, b)) && Fits(Byte, BitAnd(a, b)) && Fits(Byte, BitXor(a, b))
  {
    assert Pow2(8) == 256;
    WidthKept(a, b, 8);
  }

  lemma SumIsByte(a: int, v: byte, p: Flags)
    ensures Fits(Byte, AddBinary(a, v, p).res) && AddBinary(a, v, p).src == v
    ensures Fits(Byte, AddDecimal(a, v, p).res) && AddDecimal(a, v, p).src == v
    ensures Fits(Byte, SubDecimal(a, v, p).res) && SubDecimal(a, v, p).src == v
  {
    hide NZ, Overflow;
  }

  lemma {:induction false} SetBanksAligned(mpr: File8, mask: nat, value: int, k: nat)
    requires k <= 8 && AlignedBank(value) && forall i :: 0 <= i < 8 ==> AlignedBank(mpr[i])
    ensures forall i :: 0 <= i < 8 ==> AlignedBank(SetBanks(mpr, mask, value, k)[i])
    decreases 8 - k
  {
    if k < 8 {
      SetBanksAligned(if Digit(mask, k) then mpr[k := value] else mpr, mask, value, k + 1);
    }
  }

  lemma {:induction false} OrBanksIsByte(mpr: File8, mask: nat, acc: nat, k: nat)
    requires k <= 8 && acc < 256 && forall i :: 0 <= i < 8 ==> AlignedBank(mpr[i])
    ensures OrBanks(mpr, mask, acc, k) < 256
    decreases 8 - k
  {
    if k < 8 {
      assert Pow2(8) == 256;
      WidthKept(acc, mpr[k] / 8192, 8);
      OrBanksIsByte(mpr, mask, if Digit(mask, k) && mpr[k] >= 0 then BitOr(acc, mpr[k] / 8192) else acc, k + 1);
    }
  }

  lemma AccumulatorIsByte(ab: Abs, r: Regs)
    requires SaneRegs(ab, r)
    ensures Fits(Byte, r.a)
  {
  }

  lemma AluSound(f: AluOp, dst: Reg, v: Src, ab: Abs, wraps: bool, s: Core)
    requires Sane(ab, wraps, s) && AbsDo(Alu(f, dst, v), ab, wraps).Some?
    ensures Sane(AbsDo(Alu(f, dst, v), ab, wraps).value, wraps, DoAlu(s, f, dst, v))
  {
    hide AluEval, SaneRegs, Set, Put;
    SizeOfSound(v, ab, s);
    AccumulatorIsByte(ab, s.r);
    var o := AluEval(f, s.r, Eval(s, v));
    AluIsByte(f, s.r, Eval(s, v));
    assert s.r.(a := AsByte(s.r.a)) == s.r;
    var r1 := if o.src != Eval(s, v) && v.Reg? then Set(s.r, v.g, o.src) else s.r;
    if v.Reg? {
      ByteStays(ab, s.r, v.g, o.src);
    }
    var r2 := if Stores(f) then Set(r1, dst, o.res) else r1;
    if Stores(f) {
      PutSound(ab, r1, dst, Byte, o.res, wraps);
    }
    FlagsDoNotMatter(AbsDo(Alu(f, dst, v), ab, wraps).value, r2, o.p);
  }

  lemma FlagsDoNotMatter(ab: Abs, r: Regs, p: Flags)
    requires SaneRegs(ab, r)
    ensures SaneRegs(ab, r.(p := p))
  {
  }

  lemma AssignSound(m: Micro, ab: Abs, wraps: bool, s: Core)
    requires Sane(ab, wraps, s) && AbsDo(m, ab, wraps).Some?
    requires m.Move? || m.Sum? || m.Join? || m.Toggle? || m.Zigzag?
    ensures SaneRegs(AbsDo(m, ab, wraps).value, DoRegs(m, s))
  {
    hide Word, SaneRegs, Set, Put;
    match m
    case Move(dst, v) =>
      if SizeOf(ab, v).Some? {
        SizeOfSound(v, ab, s);
        PutSound(ab, s.r, dst, SizeOf(ab, v).value, Eval(s, v), wraps);
      } else {
        PutSound(ab, s.r, dst, Full, Mask(W32, Eval(s, v)), wraps);
      }
    case Sum(dst, l, r, w) =>
      PutSound(ab, s.r, dst, Widest(w), Mask(w, Eval(s, l) + Eval(s, r)), wraps);
    case Join(dst, lo, hi) =>
      SizeOfSound(lo, ab, s);
      SizeOfSound(hi, ab, s);
      WordIs(Eval(s, lo), Eval(s, hi));
      PutSound(ab, s.r, dst, Half, Word(Eval(s, lo), Eval(s, hi)), wraps);
    case Toggle(dst) =>
      SizeOfSound(Reg(dst), ab, s);
      ToggleSound(ab, s.r, dst, wraps);
    case Zigzag(dst) =>
      PutSound(ab, s.r, dst, Half, (Get(s.r, dst) + (if s.r.tr[3] != 0 then -1 else 1)) % 65536, wraps);
  }

  /** A register of byte size stays one when it is given another byte. */
  lemma ByteStays(ab: Abs, r: Regs, g: Reg, v: int)
    requires SaneRegs(ab, r) && SizeOfReg(ab, g).Byte? && Fits(Byte, v)
    ensures SaneRegs(ab, Set(r, g, v))
  {
  }

  lemma ToggleSound(ab: Abs, r: Regs, g: Reg, wraps: bool)
    requires SaneRegs(ab, r) && SizeOfReg(ab, g).Byte? && Fits(Byte, Get(r, g))
    ensures SaneRegs(ab, Set(r, g, Flip(Get(r, g))))
  {
    ByteStays(ab, r, g, Flip(Get(r, g)));
  }

  lemma BitSound(m: Micro, ab: Abs, wraps: bool, s: Core)
    requires Sane(ab, wraps, s) && (m.SetBit? || m.ResetBit?) && AbsDo(m, ab, wraps).Some?
    ensures SaneRegs(ab, DoRegs(m, s))
  {
    assert Pow2(8) == 256;
    var v := Get(s.r, m.dst);
    SizeOfSound(Reg(m.dst), ab, s);
    assert AsByte(v) == v;
    if m.SetBit? && !Digit(v, m.k) {
      SetDigitFits(v, m.k, 8);
      ByteStays(ab, s.r, m.dst, v + Pow2(m.k));
    } else if m.ResetBit? && Digit(v, m.k) {
      DigitAtMost(v, m.k);
      ByteStays(ab, s.r, m.dst, v - Pow2(m.k));
    }
  }

  lemma BanksSound(m: Micro, ab: Abs, wraps: bool, s: Core)
    requires Sane(ab, wraps, s) && (m.StoreBanks? || m.LoadBanks?) && AbsDo(m, ab, wraps).Some?
    ensures SaneRegs(ab, DoRegs(m, s))
  {
    if m.StoreBanks? {
      SetBanksAligned(s.r.mpr, s.r.ta, s.r.a * 8192, 0);
    } else {
      assert Fits(ab.tr[0], s.r.tr[0]);
      OrBanksIsByte(s.r.mpr, s.r.tr[0], 0, 0);
    }
  }

  lemma FlagSound(m: Micro, ab: Abs, wraps: bool, s: Core)
    requires Sane(ab, wraps, s) && (m.SetNZ? || m.TestMask? || m.PutFlag? || m.LoadStatus? || m.DropBrk?)
    ensures Sane(ab, wraps, Do(m, s))
  {
    hide SaneRegs, BitAnd, NZ, Unpack, SetFlag, Bit6, Bit7, Eval, Get;
    FlagsDoNotMatter(ab, s.r, DoRegs(m, s).p);
  }

  lemma BusWidth(a: nat, b: nat)
    requires a < 0x200000 && b < 0x200000
    ensures BitOr(a, b) < 0x200000
  {
    hide BitOr;
    PowValues();
    assert Pow2(17) == 16 * Pow2(13) && Pow2(21) == 16 * Pow2(17);
    WidthKept(a, b, 21);
  }

  lemma AddressesFit(mpr: File8, v: int)
    requires forall i :: 0 <= i < 8 ==> AlignedBank(mpr[i])
    ensures Word16(v) ==> 0 <= Phys(mpr, v) < 0x200000
    ensures Fits(Byte, v) ==> 0 <= ZeroPage(mpr, v) < 0x200000 && 0 <= StackAddr(mpr, v) < 0x200000
  {
    hide BitOr;
    if Word16(v) {
      BusWidth(mpr[v / 8192], v % 8192);
    }
    if Fits(Byte, v) {
      BusWidth(mpr[1], v);
      BusWidth(mpr[1], 0x100);
      BusWidth(BitOr(mpr[1], 0x100), v);
    }
  }

  lemma ResetStackFits(sp: int)
    requires Fits(Byte, sp)
    ensures 0 <= BitOr(sp, 0x100) < 0x200000
  {
    hide BitOr;
    BusWidth(sp, 0x100);
  }

  /** Statements that leave the registers alone. */
  lemma PinSound(m: Micro, ab: Abs, wraps: bool, s: Core)
    requires Sane(ab, wraps, s) && AbsDo(m, ab, wraps).Some?
    requires m.AddrMapped? || m.AddrPage1? || m.AddrStack? || m.AddrFixed? || m.AddrResetStack? || m.AddrNext?
      || m.Out? || m.BlockMode? || m.Speed? || m.PollIrqs?
    ensures Sane(AbsDo(m, ab, wraps).value, wraps, Do(m, s))
  {
    if m.AddrMapped? || m.AddrPage1? || m.Out? {
      SizeOfSound(m.v, ab, s);
    }
    AddressesFit(s.r.mpr, if m.AddrMapped? || m.AddrPage1? then Eval(s, m.v) else s.r.sp);
    ResetStackFits(s.r.sp);
    hide SaneRegs, Phys, ZeroPage, StackAddr, BitOr, Eval;
    if m.Out? {
      OutKeeps(ab, s.r, Eval(s, m.v));
    }
  }

  lemma OutKeeps(ab: Abs, r: Regs, v: int)
    ensures forall z :: SaneRegs(ab.(d := z), r) == SaneRegs(ab, r)
  {
  }

  lemma ResetSound(ab: Abs, wraps: bool, s: Core)
    requires Sane(ab, wraps, s)
    ensures Sane(ab, wraps, Do(ResetMachine, s))
  {
  }

  lemma DoSound(m: Micro, ab: Abs, wraps: bool, s: Core)
    requires Sane(ab, wraps, s) && AbsDo(m, ab, wraps).Some?
    ensures Sane(AbsDo(m, ab, wraps).value, wraps, Do(m, s))
  {
    match m
    case Alu(f, dst, v) => AluSound(f, dst, v, ab, wraps, s);
    case Move(_, _) => AssignSound(m, ab, wraps, s); AssignKeepsD(m, ab, wraps);
    case Sum(_, _, _, _) => AssignSound(m, ab, wraps, s); AssignKeepsD(m, ab, wraps);
    case Join(_, _, _) => AssignSound(m, ab, wraps, s); AssignKeepsD(m, ab, wraps);
    case Toggle(_) => AssignSound(m, ab, wraps, s); AssignKeepsD(m, ab, wraps);
    case Zigzag(_) => AssignSound(m, ab, wraps, s); AssignKeepsD(m, ab, wraps);
    case SetBit(_, _) => BitSound(m, ab, wraps, s);
    case ResetBit(_, _) => BitSound(m, ab, wraps, s);
    case StoreBanks => BanksSound(m, ab, wraps, s);
    case LoadBanks => BanksSound(m, ab, wraps, s);
    case SetNZ(_) => FlagSound(m, ab, wraps, s);
    case TestMask(_, _) => FlagSound(m, ab, wraps, s);
    case PutFlag(_, _) => FlagSound(m, ab, wraps, s);
    case LoadStatus => FlagSound(m, ab, wraps, s);
    case DropBrk => FlagSound(m, ab, wraps, s);
    case ResetMachine => ResetSound(ab, wraps, s);
    case _ => PinSound(m, ab, wraps, s);
    hide SaneRegs, DoRegs, AluEval, Phys, ZeroPage, StackAddr;
  }

  lemma AssignKeepsD(m: Micro, ab: Abs, wraps: bool)
    requires (m.Move? || m.Sum? || m.Join? || m.Toggle? || m.Zigzag?) && AbsDo(m, ab, wraps).Some?
    ensures AbsDo(m, ab, wraps).value.d == ab.d
  {
  }

  // ----- A whole case, and a whole instruction -----

  const FETCH: seq<Op> := [Just(AddrMapped(Reg(RPC))), Just(Sum(RPC, Reg(RPC), Num(1), W16))]

  function EndOps(poll: bool, clearT: bool): seq<Op> {
    (if poll then [Just(PollIrqs)] else []) + (if clearT then [Just(PutFlag(FT, false))] else []) + [ClearTCU]
  }

  function LatchAbs(ab: Abs, pins: Pins): Abs {
    if pins.rd then ab.(d := Byte) else ab
  }

  /** Case k+1 passes the check, turning the sizes at its start into those of the next case. */
  predicate CaseOK(cs: seq<Cycle>, entry: seq<Abs>, k: nat, wraps: bool)
    requires k < |cs| && |entry| == |cs| + 1
  {
    && AbsOps(cs[k].pre, Some(LatchAbs(entry[k], PinsBefore(cs, k))), PinsBefore(cs, k).wr, wraps) == Some(entry[k + 1])
    && !(cs[k].pins.rd && cs[k].pins.wr)
    && !cs[k].jump.Loop?
    && (cs[k].jump.Skip? ==> cs[k].pins == IDLE && (k + 1 < |cs| ==> IsIdle(cs[k + 1])))
  }

  predicate PrefixOK(cs: seq<Cycle>, entry: seq<Abs>, wraps: bool) {
    && |entry| == |cs| + 1
    && entry[0] == AT_BOUNDARY
    && forall k :: 0 <= k < |cs| ==> CaseOK(cs, entry, k, wraps)
  }

  /** The last case fetches the next opcode and closes the instruction; no other case does. */
  predicate Closed(cs: seq<Cycle>, poll: bool, clearT: bool) {
    && |cs| > 0
    && (forall k :: 0 <= k < |cs| - 1 ==> cs[k].post == [])
    && var c := cs[|cs| - 1];
    && c.jump == Straight && c.pins == READ && c.post == EndOps(poll, clearT)
    && |c.pre| >= 2 && c.pre[|c.pre| - 2..] == FETCH
  }

  predicate Certified(cs: seq<Cycle>, entry: seq<Abs>, wraps: bool, poll: bool, clearT: bool) {
    PrefixOK(cs, entry, wraps) && Closed(cs, poll, clearT)
  }

  /** What an instruction may assume of the state it starts in, and leaves to the next one. */
  predicate AtBoundary(wraps: bool, s: Cpu) {
    && s.tcu == 0 && s.rd && !s.wr
    && Sane(AT_BOUNDARY, wraps, s.core)
    && (s.core.fault || Boundary(s))
  }

  lemma Monotone(ab: Abs, wraps: bool, s: Core)
    requires Sane(ab, wraps, s) && Word16(s.r.pc)
    ensures Sane(AT_BOUNDARY, wraps, s)
  {
  }

  lemma FetchSound(ab: Abs, wraps: bool, s: Core)
    requires Sane(ab, wraps, s) && (!ab.pc.Full? || wraps)
    ensures Sane(AT_BOUNDARY, wraps, Fetch(s))
    ensures !Fetch(s).fault ==> Fetch(s).addr == Phys(Fetch(s).r.mpr, Dec16(Fetch(s).r.pc))
  {
    hide Phys;
    AddressesFit(s.r.mpr, s.r.pc);
  }

  lemma BranchEndSound(ab: Abs, wraps: bool, s: Cpu)
    requires Sane(ab, wraps, s.core) && (!ab.pc.Full? || wraps) && !s.wr
    ensures AtBoundary(wraps, s.(core := BranchEnd(s.core), rd := true, tcu := 0))
    ensures !BranchEnd(s.core).r.p.t
  {
    hide Phys;
    FetchSound(ab, wraps, s.core);
  }

  lemma {:induction false} OpsSound(ops: seq<Op>, ab: Abs, wraps: bool, s: Cpu)
    requires Sane(ab, wraps, s.core) && AbsOps(ops, Some(ab), s.wr, wraps).Some?
    ensures var f := RunOps(ops, Go(s));
      && (f.Go? ==> Sane(AbsOps(ops, Some(ab), s.wr, wraps).value, wraps, f.s.core))
      && (f.Go? ==> f.s.rd == s.rd && f.s.wr == s.wr && f.s.tcu == s.tcu && f.s.mem == s.mem)
      && (f.Ret? ==> AtBoundary(wraps, f.s) && !f.s.core.r.p.t && f.s.mem == s.mem)
  {
    hide Do, AbsDo, Sane, BranchEnd;
    if |ops| > 0 {
      var n := |ops| - 1;
      OpsSound(ops[..n], ab, wraps, s);
      var f := RunOps(ops[..n], Go(s));
      if f.Go? {
        var ab1 := AbsOps(ops[..n], Some(ab), s.wr, wraps).value;
        if ops[n].Just? {
          DoSound(ops[n].m, ab1, wraps, f.s.core);
        } else {
          BranchEndSound(ab1, wraps, f.s);
        }
      }
    }
  }

  function EndCore(poll: bool, clearT: bool, s: Core): Core {
    var s1 := if poll then Poll(s) else s;
    if clearT then WithT(s1, false) else s1
  }

  lemma RunOne(op: Op, f: Flow)
    ensures RunOps([op], f) == Then(f, op)
  {
    hide Step;
    assert [op][..0] == [];
  }

  lemma DoEnd(s: Core)
    ensures Do(PollIrqs, s) == Poll(s)
    ensures Do(PutFlag(FT, false), s) == WithT(s, false)
  {
  }

  lemma EndOpsRun(poll: bool, clearT: bool, s: Cpu)
    ensures RunOps(EndOps(poll, clearT), Go(s)) == Go(s.(core := EndCore(poll, clearT, s.core), tcu := 0))
  {
    hide Do, Poll, RunOps;
    var p := if poll then [Just(PollIrqs)] else [];
    var t := if clearT then [Just(PutFlag(FT, false))] else [];
    RunOpsAppend(p + t, [ClearTCU], Go(s));
    RunOpsAppend(p, t, Go(s));
    RunNone(Go(s));
    RunOne(Just(PollIrqs), Go(s));
    DoEnd(s.core);
    var s1 := s.(core := if poll then Poll(s.core) else s.core);
    assert RunOps(p, Go(s)) == Go(s1);
    RunNone(Go(s1));
    RunOne(Just(PutFlag(FT, false)), Go(s1));
    DoEnd(s1.core);
    var s2 := s1.(core := EndCore(poll, clearT, s.core));
    assert RunOps(t, Go(s1)) == Go(s2);
    RunOne(ClearTCU, Go(s2));
  }

  lemma RunNone(f: Flow)
    ensures RunOps([], f) == f
  {
  }

  lemma DoFetch(s: Core)
    ensures Do(Sum(RPC, Reg(RPC), Num(1), W16), Do(AddrMapped(Reg(RPC)), s)) == Fetch(s)
  {
    hide Phys;
  }

  lemma FetchRuns(s: Cpu)
    ensures RunOps(FETCH, Go(s)) == Go(s.(core := Fetch(s.core)))
  {
    hide Do, Fetch, RunOps;
    assert FETCH == [FETCH[0]] + [FETCH[1]];
    RunOpsAppend([FETCH[0]], [FETCH[1]], Go(s));
    RunOne(FETCH[0], Go(s));
    RunOne(FETCH[1], Step(FETCH[0], s));
    DoFetch(s.core);
  }

  lemma EndCoreSound(poll: bool, clearT: bool, wraps: bool, s: Core)
    requires Sane(AT_BOUNDARY, wraps, s)
    ensures Sane(AT_BOUNDARY, wraps, EndCore(poll, clearT, s))
  {
  }

  /** The statements of the closing case before its fetch, checked. */
  lemma BodyChecked(c: Cycle, ab: Abs, wr: bool, wraps: bool)
    requires |c.pre| >= 2 && c.pre[|c.pre| - 2..] == FETCH && AbsOps(c.pre, Some(ab), wr, wraps).Some?
    ensures var body := c.pre[..|c.pre| - 2];
      && c.pre == body + FETCH && AbsOps(body, Some(ab), wr, wraps).Some?
      && (!AbsOps(body, Some(ab), wr, wraps).value.pc.Full? || wraps)
  {
    hide AbsDo, AbsOp;
    var n := |c.pre| - 2;
    var body := c.pre[..n];
    assert c.pre == body + FETCH;
    assert c.pre[..n + 1][..n] == body && c.pre[n] == FETCH[0];
    assert AbsOps(c.pre[..n + 1], Some(ab), wr, wraps).Some?;
    var ab1 := AbsOps(body, Some(ab), wr, wraps);
    assert ab1.Some? && AbsOp(FETCH[0], ab1.value, wr, wraps).Some?;
    FetchChecked(ab1.value, wr, wraps);
  }

  /** Fetching and closing, from a state whose sizes hold. */
  lemma EndReaches(poll: bool, clearT: bool, ab: Abs, wraps: bool, s: Cpu)
    requires Sane(ab, wraps, s.core) && (!ab.pc.Full? || wraps)
    ensures var s1 := s.(core := Fetch(s.core), rd := true, wr := false);
      var f := RunOps(EndOps(poll, clearT), Go(s1));
      AtBoundary(wraps, f.s) && (clearT ==> !f.s.core.r.p.t) && f.s.mem == s.mem
  {
    hide Do, RunOps, EndOps, Phys, Sane;
    FetchSound(ab, wraps, s.core);
    var s1 := s.(core := Fetch(s.core), rd := true, wr := false);
    EndOpsRun(poll, clearT, s1);
    EndCoreSound(poll, clearT, wraps, s1.core);
    hide Fetch;
    EndCoreKeeps(poll, clearT, s1.core);
  }

  lemma EndCoreKeeps(poll: bool, clearT: bool, s: Core)
    ensures var e := EndCore(poll, clearT, s);
      && e.fault == s.fault && e.addr == s.addr && e.r.mpr == s.r.mpr && e.r.pc == s.r.pc && (clearT ==> !e.r.p.t)
  {
  }

  /** The closing case reaches the next boundary. */
  lemma LastCaseSound(c: Cycle, ab: Abs, wraps: bool, poll: bool, clearT: bool, s: Cpu)
    requires Closed([c], poll, clearT)
    requires Sane(ab, wraps, s.core) && AbsOps(c.pre, Some(ab), s.wr, wraps).Some?
    ensures var t := RefCycle(c, s);
      AtBoundary(wraps, t) && (clearT ==> !t.core.r.p.t) && t.mem == s.mem
  {
    hide Sane, AtBoundary, RunOps, AbsOps, Fetch, EndOps, FETCH;
    var body := c.pre[..|c.pre| - 2];
    BodyChecked(c, ab, s.wr, wraps);
    OpsSound(body, ab, wraps, s);
    RunOpsAppend(body, FETCH, Go(s));
    var f := RunOps(body, Go(s));
    if f.Ret? {
      RetStays(FETCH, f.s);
    } else {
      FetchRuns(f.s);
      EndReaches(poll, clearT, AbsOps(body, Some(ab), s.wr, wraps).value, wraps, f.s);
    }
  }

  lemma FetchChecked(ab: Abs, wr: bool, wraps: bool)
    requires AbsOp(FETCH[0], ab, wr, wraps).Some?
    ensures !ab.pc.Full? || wraps
  {
  }

  lemma CertifiedPinsOK(cs: seq<Cycle>, entry: seq<Abs>, wraps: bool, poll: bool, clearT: bool)
    requires Certified(cs, entry, wraps, poll, clearT)
    ensures PinsOK(cs)
  {
    forall k | 0 <= k < |cs|
      ensures PinsFit(cs, k)
    {
      assert CaseOK(cs, entry, k, wraps);
      CheckedOps(cs[k].pre, LatchAbs(entry[k], PinsBefore(cs, k)), PinsBefore(cs, k).wr, wraps);
    }
  }

  lemma {:induction false} CheckedOps(ops: seq<Op>, ab: Abs, wr: bool, wraps: bool)
    requires AbsOps(ops, Some(ab), wr, wraps).Some?
    ensures forall op <- ops :: op.Just? || (op.BrEnd? && !wr)
  {
    hide AbsDo;
    if |ops| > 0 {
      CheckedOps(ops[..|ops| - 1], ab, wr, wraps);
      assert ops == ops[..|ops| - 1] + [ops[|ops| - 1]];
    }
  }

  /** One cycle of certified microcode: on to the next case, past an idle one, or done. */
  lemma CaseSound(cs: seq<Cycle>, entry: seq<Abs>, wraps: bool, poll: bool, clearT: bool, s: Cpu)
    requires Certified(cs, entry, wraps, poll, clearT) && PinsTracked(cs, s) && s.tcu < |cs|
    requires Sane(entry[s.tcu], wraps, s.core)
    ensures var t := RefTick(cs, s);
      if t.tcu == 0 then AtBoundary(wraps, t) && (clearT ==> !t.core.r.p.t)
      else s.tcu < t.tcu < |cs| && Sane(entry[t.tcu], wraps, t.core)
  {
    hide Do, AbsDo, Sane, BranchEnd, Phys;
    var k := s.tcu;
    var c := cs[k];
    var s1 := Latch(s);
    assert CaseOK(cs, entry, k, wraps);
    var ab := LatchAbs(entry[k], PinsBefore(cs, k));
    LatchSound(entry[k], wraps, s);
    OpsSound(c.pre, ab, wraps, s1);
    if k == |cs| - 1 {
      assert Closed([c], poll, clearT);
      LastCaseSound(c, ab, wraps, poll, clearT, s1);
    } else if c.jump.Skip? {
      assert CaseOK(cs, entry, k + 1, wraps);
    }
  }

  lemma LatchSound(ab: Abs, wraps: bool, s: Cpu)
    requires Sane(ab, wraps, s.core)
    ensures Sane(if s.rd then ab.(d := Byte) else ab, wraps, Latch(s).core)
  {
  }

  /** The cycles of `cases` from `s` up to, not including, cycle n have a case, sound pins and an address on the bus. */
  ghost predicate Clean(cases: seq<seq<Op>>, s: Cpu, n: nat) {
    forall k: nat :: k < n ==>
      var u := Ticks(cases, s, k);
      0 <= u.tcu < |cases| && !(u.rd && u.wr) && OnBus(u.core)
  }

  lemma SaneOnBus(ab: Abs, wraps: bool, s: Core)
    requires Sane(ab, wraps, s)
    ensures OnBus(s)
  {
  }

  lemma {:induction false} CertifiedFrom(cs: seq<Cycle>, entry: seq<Abs>, wraps: bool, poll: bool, clearT: bool, s: Cpu)
    returns (n: nat, t: Cpu)
    requires Certified(cs, entry, wraps, poll, clearT) && PinsTracked(cs, s) && s.tcu < |cs|
    requires Sane(entry[s.tcu], wraps, s.core)
    ensures n <= |cs| - s.tcu && Completes(Compile(cs), s, n, t) && Clean(Compile(cs), s, n)
    ensures AtBoundary(wraps, t) && (clearT ==> !t.core.r.p.t)
    decreases |cs| - s.tcu
  {
    hide Sane, RefTick, Tick, AtBoundary;
    var cases := Compile(cs);
    CertifiedPinsOK(cs, entry, wraps, poll, clearT);
    PinEncodingStep(cs, s);
    CaseSound(cs, entry, wraps, poll, clearT, s);
    var u := Tick(cases, s);
    if s.tcu > 0 {
      assert CaseOK(cs, entry, s.tcu - 1, wraps);
    }
    assert !(s.rd && s.wr) && OnBus(s.core) by { SaneOnBus(entry[s.tcu], wraps, s.core); }
    assert Ticks(cases, s, 0) == s;
    if u.tcu == 0 {
      n, t := 1, u;
      assert Ticks(cases, s, 1) == Ticks(cases, u, 0);
    } else {
      n, t := CertifiedFrom(cs, entry, wraps, poll, clearT, u);
      forall k: nat | 0 < k <= n + 1
        ensures Ticks(cases, s, k) == Ticks(cases, u, k - 1)
      {
      }
      assert Ticks(cases, u, 0) == u;
      n := n + 1;
    }
  }

  /**
   Every run of certified microcode from a boundary: it never misses a case, never drives RD and
   WR together, takes at most one cycle per case, and ends at a boundary with T clear unless the
   instruction asked to keep it.
   */
  lemma CertifiedCompletes(cs: seq<Cycle>, entry: seq<Abs>, wraps: bool, poll: bool, clearT: bool, s: Cpu)
    returns (n: nat, t: Cpu)
    requires Certified(cs, entry, wraps, poll, clearT) && AtBoundary(wraps, s)
    ensures n <= |cs| && Completes(Compile(cs), s, n, t) && Clean(Compile(cs), s, n)
    ensures AtBoundary(wraps, t) && (clearT ==> !t.core.r.p.t)
  {
    n, t := CertifiedFrom(cs, entry, wraps, poll, clearT, s);
  }
}
