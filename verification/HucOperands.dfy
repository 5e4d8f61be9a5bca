/** The operand forms: the byte they fetch, with and without T mode. */
module HucOperands {
  import opened Common
  import opened HucMachine
  import opened HucMicrocode
  import opened HucCertify
  import opened HucSwitchgen
  import opened HucText
  import opened HucExec

  // ----- The address phase -----

  function Index(r: Regs, inx: Option<Reg>): int {
    if inx.Some? then Get(r, inx.value) else 0
  }

  /** The core once a form has asked for its operand byte; memory is only read. */
  function Address(m: Mode, c: Core, mem: map<int, byte>): Core
    requires Word16(c.r.pc)
  {
    var pc := c.r.pc;
    var b := Read(mem, Phys(c.r.mpr, pc));
    match m
    case Imm => c.(addr := Phys(c.r.mpr, pc), r := c.r.(pc := Inc16(pc)))
    case Zp(inx) =>
      var ta := (b + Index(c.r, inx)) % 256;
      c.(d := b, addr := ZeroPage(c.r.mpr, ta), r := c.r.(pc := Inc16(pc), ta := ta))
    case Abso(inx) =>
      var hi := Read(mem, Phys(c.r.mpr, Inc16(pc)));
      var ta := (Word(b, hi) + Index(c.r, inx)) % 65536;
      c.(d := hi, addr := Phys(c.r.mpr, ta), r := c.r.(pc := Inc16(Inc16(pc)), ta := ta, tr := c.r.tr[0 := hi]))
    case Ind(inx) => Indirect(c, mem, b, (b + Index(c.r, inx)) % 256, 0)
    case IndY => Indirect(c, mem, b, b, c.r.y)
  }

  /** Through the pointer at zero-page p, plus `add`. */
  function Indirect(c: Core, mem: map<int, byte>, b: byte, p: int, add: int): Core {
    var q := (p + 1) % 256;
    var lo, hi := Read(mem, ZeroPage(c.r.mpr, p)), Read(mem, ZeroPage(c.r.mpr, q));
    var ta := (Word(lo, hi) + add) % 65536;
    c.(d := hi, addr := Phys(c.r.mpr, ta),
       r := c.r.(pc := Inc16(c.r.pc), ta := ta, tr := c.r.tr[0 := lo][1 := hi]))
  }

  /** A case that ends by asking for a byte at PC. */
  lemma AskPcTick(cs: seq<Cycle>, s: Cpu, pre: seq<Op>, c: Core)
    requires 0 <= s.tcu < |cs| && cs[s.tcu] == C(pre + [ADDR_PC], READ)
    requires (forall op <- pre :: op.Just?) && Micros(pre, Latched(s)) == c && Word16(c.r.pc)
    ensures RefTick(cs, s) == Cpu(c.(addr := Phys(c.r.mpr, c.r.pc)), s.tcu + 1, true, false, s.mem)
  {
    hide Phys;
    MicrosAppend(pre, [ADDR_PC], Latched(s));
    Micros1(ADDR_PC.m, c);
    StraightTick(cs, s, pre + [ADDR_PC], READ, c.(addr := Phys(c.r.mpr, c.r.pc)));
  }

  function TakeNext(c: Core, g: Reg): Core {
    c.(r := Set(Set(c.r, g, c.d), RPC, Inc16(c.r.pc)))
  }

  lemma TakeDo(c: Core, g: Reg)
    requires Fits(Byte, c.d)
    ensures Do(Take(g).m, c) == c.(r := Set(c.r, g, c.d))
  {
    hide Set;
  }

  lemma IncPcDo(c: Core)
    ensures Do(INC_PC.m, c) == c.(r := c.r.(pc := Inc16(c.r.pc)))
  {
  }

  lemma SetKeepsPC(r: Regs, g: Reg, v: int)
    requires g != RPC
    ensures Set(r, g, v).pc == r.pc && Set(Set(r, g, v), RPC, Inc16(r.pc)) == Set(r, g, v).(pc := Inc16(r.pc))
  {
  }

  lemma TakeNextMicros(c: Core, g: Reg)
    requires Fits(Byte, c.d) && g != RPC
    ensures Micros([Take(g), INC_PC], c) == TakeNext(c, g)
  {
    hide Do, Set;
    Micros2(Take(g).m, INC_PC.m, c);
    TakeDo(c, g);
    IncPcDo(c.(r := Set(c.r, g, c.d)));
    SetKeepsPC(c.r, g, c.d);
  }

  lemma IndexMicros(c: Core, inx: Option<Reg>, w: Width)
    requires IsIndex(inx) && Fits(Widest(w), c.r.ta)
    ensures Micros(IndexOps(RTA, inx, w), c) == c.(r := c.r.(ta := Mask(w, c.r.ta + Index(c.r, inx))))
  {
    hide Do, Micros, Mask;
    MaskFits(w, c.r.ta);
    if inx.Some? {
      Micros1(Sum(RTA, Reg(RTA), Reg(inx.value), w), c);
      IndexDo(c, inx.value, w);
    } else {
      MicrosNone(c);
    }
  }

  lemma IndexDo(c: Core, g: Reg, w: Width)
    ensures Do(Sum(RTA, Reg(RTA), Reg(g), w), c) == c.(r := c.r.(ta := Mask(w, c.r.ta + Get(c.r, g))))
  {
    hide Mask;
  }

  lemma MaskFits(w: Width, v: int)
    requires Fits(Widest(w), v)
    ensures Mask(w, v) == v
  {
  }

  lemma AskDo(c: Core)
    ensures Do(ASK_TA.m, c) == c.(addr := ZeroPage(c.r.mpr, c.r.ta))
    ensures Do(ASK_X.m, c) == c.(addr := ZeroPage(c.r.mpr, c.r.x))
    ensures Word16(c.r.ta) ==> Do(ASK_MEM.m, c) == c.(addr := Phys(c.r.mpr, c.r.ta))
  {
    hide ZeroPage, Phys;
  }

  lemma JoinDo(c: Core)
    ensures Do(JOIN_TA.m, c) == c.(r := c.r.(ta := Word(c.r.ta, c.r.tr[0])))
    ensures Do(JOIN_PTR.m, c) == c.(r := c.r.(ta := Word(c.r.tr[0], c.r.tr[1])))
  {
    hide Word;
  }

  /** `s` starts a form: `c` is the core once `pre` has run in the first case. */
  predicate Starts(cs: seq<Cycle>, m: Mode, s: Cpu, pre: seq<Op>, c: Core) {
    var n := |AddrCases(m, pre)|;
    && |cs| > n && (forall k :: 0 <= k < n ==> cs[k] == AddrCases(m, pre)[k])
    && s.tcu == 0 && (forall op <- pre :: op.Just?) && Micros(pre, Latched(s)) == c
    && Word16(c.r.pc) && Fits(Byte, c.r.x) && Fits(Byte, c.r.y)
    && (m.Zp? || m.Abso? || m.Ind? ==> IsIndex(m.inx))
  }

  function Asked(c: Core, n: nat, mem: map<int, byte>): Cpu {
    Cpu(c, n, true, false, mem)
  }

  lemma ZpPhase(cs: seq<Cycle>, m: Mode, s: Cpu, pre: seq<Op>, c: Core)
    requires m.Zp? && Starts(cs, m, s, pre, c)
    ensures Within(cs, s, 3, Asked(Address(m, c, s.mem), 3, s.mem))
  {
    hide Do, Phys, ZeroPage, Micros, RefTick;
    var b := Read(s.mem, Phys(c.r.mpr, c.r.pc));
    WithinNone(cs, s);
    AskPcTick(cs, s, pre, c);
    var t1 := Asked(c.(addr := Phys(c.r.mpr, c.r.pc)), 1, s.mem);
    WithinMore(cs, s, 0, s);
    var l1 := c.(addr := Phys(c.r.mpr, c.r.pc), d := b);
    TakeNextMicros(l1, RTA);
    var c2 := l1.(r := l1.r.(ta := b, pc := Inc16(c.r.pc)));
    StraightTick(cs, t1, [Take(RTA), INC_PC], IDLE, c2);
    var t2 := Cpu(c2, 2, false, false, s.mem);
    WithinMore(cs, s, 1, t1);
    var ix := IndexOps(RTA, m.inx, W8);
    IndexMicros(c2, m.inx, W8);
    var c3 := c2.(r := c2.r.(ta := (b + Index(c.r, m.inx)) % 256));
    MicrosAppend(ix, [ASK_TA], c2);
    Micros1(ASK_TA.m, c3);
    AskDo(c3);
    StraightTick(cs, t2, ix + [ASK_TA], READ, Address(m, c, s.mem));
    WithinMore(cs, s, 2, t2);
  }

  lemma ImmPhase(cs: seq<Cycle>, s: Cpu, pre: seq<Op>, c: Core)
    requires Starts(cs, Imm, s, pre, c)
    ensures Within(cs, s, 1, Asked(Address(Imm, c, s.mem), 1, s.mem))
  {
    hide Do, Phys, ZeroPage, Micros, RefTick;
    WithinNone(cs, s);
    MicrosAppend(pre, [ADDR_PC, INC_PC], Latched(s));
    Micros2(ADDR_PC.m, INC_PC.m, c);
    AskPcDo(c);
    IncPcDo(c.(addr := Phys(c.r.mpr, c.r.pc)));
    StraightTick(cs, s, pre + [ADDR_PC, INC_PC], READ, Address(Imm, c, s.mem));
    WithinMore(cs, s, 0, s);
  }

  lemma AskPcDo(c: Core)
    requires Word16(c.r.pc)
    ensures Do(ADDR_PC.m, c) == c.(addr := Phys(c.r.mpr, c.r.pc))
  {
    hide Phys;
  }

  /** The two operand bytes of an absolute form. */
  lemma AbsoBytes(cs: seq<Cycle>, m: Mode, s: Cpu, pre: seq<Op>, c: Core)
    requires m.Abso? && Starts(cs, m, s, pre, c)
    ensures var pc := c.r.pc;
      var lo, hi := Read(s.mem, Phys(c.r.mpr, pc)), Read(s.mem, Phys(c.r.mpr, Inc16(pc)));
      Within(cs, s, 2, Asked(c.(d := lo, addr := Phys(c.r.mpr, Inc16(pc)), r := c.r.(ta := lo, pc := Inc16(pc))), 2,
        s.mem))
  {
    hide Do, Phys, Micros, RefTick;
    var pc := c.r.pc;
    var lo := Read(s.mem, Phys(c.r.mpr, pc));
    WithinNone(cs, s);
    AskPcTick(cs, s, pre, c);
    var t1 := Asked(c.(addr := Phys(c.r.mpr, pc)), 1, s.mem);
    WithinMore(cs, s, 0, s);
    var l1 := t1.core.(d := lo);
    TakeNextMicros(l1, RTA);
    var c2 := l1.(r := l1.r.(ta := lo, pc := Inc16(pc)));
    assert [Take(RTA), INC_PC] + [ADDR_PC] == [Take(RTA), INC_PC, ADDR_PC];
    AskPcTick(cs, t1, [Take(RTA), INC_PC], c2);
    WithinMore(cs, s, 1, t1);
  }

  lemma AbsoPhase(cs: seq<Cycle>, m: Mode, s: Cpu, pre: seq<Op>, c: Core)
    requires m.Abso? && Starts(cs, m, s, pre, c)
    ensures Within(cs, s, 4, Asked(Address(m, c, s.mem), 4, s.mem))
  {
    hide Do, Phys, Micros, RefTick, Word;
    AbsoBytes(cs, m, s, pre, c);
    var pc := c.r.pc;
    var lo, hi := Read(s.mem, Phys(c.r.mpr, pc)), Read(s.mem, Phys(c.r.mpr, Inc16(pc)));
    var t2 := Asked(c.(d := lo, addr := Phys(c.r.mpr, Inc16(pc)), r := c.r.(ta := lo, pc := Inc16(pc))), 2, s.mem);
    var l2 := t2.core.(d := hi);
    TakeNextMicros(l2, RTR(0));
    var c3 := l2.(r := l2.r.(tr := c.r.tr[0 := hi], pc := Inc16(Inc16(pc))));
    assert [Take(RTR(0)), INC_PC] + [JOIN_TA] == [Take(RTR(0)), INC_PC, JOIN_TA];
    MicrosAppend([Take(RTR(0)), INC_PC], [JOIN_TA], l2);
    Micros1(JOIN_TA.m, c3);
    JoinDo(c3);
    WordIs(lo, hi);
    var c3' := c3.(r := c3.r.(ta := Word(lo, hi)));
    StraightTick(cs, t2, [Take(RTR(0)), INC_PC, JOIN_TA], IDLE, c3');
    var t3 := Cpu(c3', 3, false, false, s.mem);
    WithinMore(cs, s, 2, t2);
    IndexedAsk(cs, t3, m.inx);
    WithinMore(cs, s, 3, t3);
  }

  /** The case that adds the index to TA and asks for the byte there. */
  lemma IndexedAsk(cs: seq<Cycle>, t: Cpu, inx: Option<Reg>)
    requires 0 <= t.tcu < |cs| && cs[t.tcu] == C(IndexOps(RTA, inx, W16) + [ASK_MEM], READ)
    requires !t.rd && IsIndex(inx) && Word16(t.core.r.ta)
    ensures var c := t.core; var ta := (c.r.ta + Index(c.r, inx)) % 65536;
      RefTick(cs, t) == Asked(c.(addr := Phys(c.r.mpr, ta), r := c.r.(ta := ta)), t.tcu + 1, t.mem)
  {
    hide Do, Phys, Micros, RefTick;
    var c, ix := t.core, IndexOps(RTA, inx, W16);
    IndexMicros(c, inx, W16);
    var c4 := c.(r := c.r.(ta := (c.r.ta + Index(c.r, inx)) % 65536));
    MicrosAppend(ix, [ASK_MEM], c);
    Micros1(ASK_MEM.m, c4);
    AskDo(c4);
    StraightTick(cs, t, ix + [ASK_MEM], READ, c4.(addr := Phys(c.r.mpr, c4.r.ta)));
  }

  /** The three pointer cases, from an idle cycle with the pointer's address in TA. */
  lemma PointerPhase(cs: seq<Cycle>, s: Cpu, n: nat, t: Cpu)
    requires Within(cs, s, n, t) && !t.rd && !t.wr && Fits(Byte, t.core.r.ta)
    requires 0 < t.tcu && t.tcu + 3 < |cs| && cs[t.tcu] == POINTER_CASES[0]
    requires cs[t.tcu + 1] == POINTER_CASES[1] && cs[t.tcu + 2] == POINTER_CASES[2]
    ensures var c := t.core; var q := (c.r.ta + 1) % 256;
      var lo, hi := Read(t.mem, ZeroPage(c.r.mpr, c.r.ta)), Read(t.mem, ZeroPage(c.r.mpr, q));
      Within(cs, s, n + 3, Cpu(c.(d := hi, addr := ZeroPage(c.r.mpr, q),
        r := c.r.(ta := q, tr := c.r.tr[0 := lo][1 := hi])),
                               t.tcu + 3, false, false, t.mem))
  {
    hide Do, Phys, ZeroPage, Micros, RefTick, Word;
    var c, k := t.core, t.tcu;
    var q := (c.r.ta + 1) % 256;
    var lo, hi := Read(t.mem, ZeroPage(c.r.mpr, c.r.ta)), Read(t.mem, ZeroPage(c.r.mpr, q));
    Micros1(ASK_TA.m, c);
    AskDo(c);
    var c1 := c.(addr := ZeroPage(c.r.mpr, c.r.ta));
    StraightTick(cs, t, [ASK_TA], READ, c1);
    var t1 := Asked(c1, k + 1, t.mem);
    WithinMore(cs, s, n, t);
    var l1 := c1.(d := lo);
    Micros3(Take(RTR(0)).m, NEXT_TA.m, ASK_TA.m, l1);
    TakeDo(l1, RTR(0));
    var l1' := l1.(r := l1.r.(tr := c.r.tr[0 := lo]));
    NextTaDo(l1');
    var l1'' := l1'.(r := l1'.r.(ta := q));
    AskDo(l1'');
    var c2 := l1''.(addr := ZeroPage(c.r.mpr, q));
    StraightTick(cs, t1, [Take(RTR(0)), NEXT_TA, ASK_TA], READ, c2);
    var t2 := Asked(c2, k + 2, t.mem);
    WithinMore(cs, s, n + 1, t1);
    var l2 := c2.(d := hi);
    Micros1(Take(RTR(1)).m, l2);
    TakeDo(l2, RTR(1));
    StraightTick(cs, t2, [Take(RTR(1))], IDLE, l2.(r := l2.r.(tr := c.r.tr[0 := lo][1 := hi])));
    WithinMore(cs, s, n + 2, t2);
  }

  lemma NextTaDo(c: Core)
    ensures Do(NEXT_TA.m, c) == c.(r := c.r.(ta := (c.r.ta + 1) % 256))
    ensures Do(ADD_Y.m, c) == c.(r := c.r.(ta := (c.r.ta + c.r.y) % 65536))
  {
  }

  /** (zp), (zp,X) and (zp),Y up to the pointer. */
  lemma PointerAddress(cs: seq<Cycle>, m: Mode, s: Cpu, pre: seq<Op>, c: Core)
    requires (m.Ind? || m.IndY?) && Starts(cs, m, s, pre, c)
    ensures var b := Read(s.mem, Phys(c.r.mpr, c.r.pc));
      var p := if m.Ind? then (b + Index(c.r, m.inx)) % 256 else b;
      Within(cs, s, 2, Cpu(c.(addr := Phys(c.r.mpr, c.r.pc), d := b, r := c.r.(ta := p, pc := Inc16(c.r.pc))), 2,
        false, false, s.mem))
  {
    hide Do, Phys, ZeroPage, Micros, RefTick;
    var b := Read(s.mem, Phys(c.r.mpr, c.r.pc));
    WithinNone(cs, s);
    AskPcTick(cs, s, pre, c);
    var t1 := Asked(c.(addr := Phys(c.r.mpr, c.r.pc)), 1, s.mem);
    WithinMore(cs, s, 0, s);
    var l1 := c.(addr := Phys(c.r.mpr, c.r.pc), d := b);
    TakeNextMicros(l1, RTA);
    var c2 := l1.(r := l1.r.(ta := b, pc := Inc16(c.r.pc)));
    var ix := if m.Ind? then IndexOps(RTA, m.inx, W8) else [];
    if m.Ind? {
      IndexMicros(c2, m.inx, W8);
    } else {
      MicrosNone(c2);
      assert [Take(RTA), INC_PC] + ix == [Take(RTA), INC_PC];
    }
    MicrosAppend([Take(RTA), INC_PC], ix, l1);
    var p := if m.Ind? then (b + Index(c.r, m.inx)) % 256 else b;
    StraightTick(cs, t1, [Take(RTA), INC_PC] + ix, IDLE, c2.(r := c2.r.(ta := p)));
    WithinMore(cs, s, 1, t1);
  }

  lemma MicrosNone(c: Core)
    ensures Micros([], c) == c
  {
  }

  /** The case that joins the pointer, adds Y if asked, and asks for the byte there. */
  lemma PointerAsk(cs: seq<Cycle>, m: Mode, t: Cpu)
    requires 0 <= t.tcu < |cs| && (m.Ind? || m.IndY?) && !t.rd
    requires cs[t.tcu] == C(if m.Ind? then [JOIN_PTR, ASK_MEM] else [JOIN_PTR, ADD_Y, ASK_MEM], READ)
    requires Fits(Byte, t.core.r.tr[0]) && Fits(Byte, t.core.r.tr[1])
    ensures var c := t.core; var ta := (Word(c.r.tr[0], c.r.tr[1]) + if m.Ind? then 0 else c.r.y) % 65536;
      RefTick(cs, t) == Asked(c.(addr := Phys(c.r.mpr, ta), r := c.r.(ta := ta)), t.tcu + 1, t.mem)
  {
    hide Do, Phys, Micros, RefTick, Word;
    var c := t.core;
    WordIs(c.r.tr[0], c.r.tr[1]);
    JoinDo(c);
    var c1 := c.(r := c.r.(ta := Word(c.r.tr[0], c.r.tr[1])));
    if m.Ind? {
      Micros2(JOIN_PTR.m, ASK_MEM.m, c);
      AskDo(c1);
      StraightTick(cs, t, [JOIN_PTR, ASK_MEM], READ, c1.(addr := Phys(c.r.mpr, c1.r.ta)));
    } else {
      Micros3(JOIN_PTR.m, ADD_Y.m, ASK_MEM.m, c);
      NextTaDo(c1);
      var c2 := c1.(r := c1.r.(ta := (c1.r.ta + c.r.y) % 65536));
      AskDo(c2);
      StraightTick(cs, t, [JOIN_PTR, ADD_Y, ASK_MEM], READ, c2.(addr := Phys(c.r.mpr, c2.r.ta)));
    }
  }

  lemma IndirectCases(cs: seq<Cycle>, m: Mode, s: Cpu, pre: seq<Op>, c: Core)
    requires (m.Ind? || m.IndY?) && Starts(cs, m, s, pre, c)
    ensures |cs| > 6 && cs[2] == POINTER_CASES[0] && cs[3] == POINTER_CASES[1] && cs[4] == POINTER_CASES[2]
    ensures cs[5] == C(if m.Ind? then [JOIN_PTR, ASK_MEM] else [JOIN_PTR, ADD_Y, ASK_MEM], READ)
  {
    hide Micros;
    assert cs[2] == AddrCases(m, pre)[2] && cs[3] == AddrCases(m, pre)[3] && cs[4] == AddrCases(m, pre)[4];
    assert cs[5] == AddrCases(m, pre)[5];
  }

  lemma IndPhase(cs: seq<Cycle>, m: Mode, s: Cpu, pre: seq<Op>, c: Core)
    requires (m.Ind? || m.IndY?) && Starts(cs, m, s, pre, c)
    ensures Within(cs, s, 6, Asked(Address(m, c, s.mem), 6, s.mem))
  {
    hide Do, Phys, ZeroPage, Micros, RefTick, Word, AddrCases;
    IndirectCases(cs, m, s, pre, c);
    PointerAddress(cs, m, s, pre, c);
    var b := Read(s.mem, Phys(c.r.mpr, c.r.pc));
    var p := if m.Ind? then (b + Index(c.r, m.inx)) % 256 else b;
    var q := (p + 1) % 256;
    var t2 := Cpu(c.(addr := Phys(c.r.mpr, c.r.pc), d := b, r := c.r.(ta := p, pc := Inc16(c.r.pc))), 2, false,
      false, s.mem);
    PointerPhase(cs, s, 2, t2);
    var lo, hi := Read(s.mem, ZeroPage(c.r.mpr, p)), Read(s.mem, ZeroPage(c.r.mpr, q));
    var c5 := c.(d := hi, addr := ZeroPage(c.r.mpr, q),
      r := c.r.(pc := Inc16(c.r.pc), ta := q, tr := c.r.tr[0 := lo][1 := hi]));
    var t5 := Cpu(c5, 5, false, false, s.mem);
    PointerAsk(cs, m, t5);
    WithinMore(cs, s, 5, t5);
  }

  lemma AddressPhase(cs: seq<Cycle>, m: Mode, s: Cpu, pre: seq<Op>, c: Core)
    requires Starts(cs, m, s, pre, c)
    ensures var n := |AddrCases(m, pre)|;
      Within(cs, s, n, Asked(Address(m, c, s.mem), n, s.mem))
  {
    match m
    case Imm => ImmPhase(cs, s, pre, c);
    case Zp(_) => ZpPhase(cs, m, s, pre, c);
    case Abso(_) => AbsoPhase(cs, m, s, pre, c);
    case _ => IndPhase(cs, m, s, pre, c);
  }
}
