/**
 Interrupts in the middle of a program: with handlers that keep to their own memory, a run with interrupts
 reaches the machine of the run without them.
 */
module HucServices {
  import opened HucMachine
  import opened HucCertify
  import opened HucText
  import opened HucTable
  import opened HucTMode
  import opened HucBlockMove
  import opened HucInterrupts
  import opened HucRun
  import opened HucIsa
  import opened HucRefine

  // ----- Machines that differ in what handlers use -----

  predicate Stands(m: Machine) {
    AtBoundary(false, Bare(m))
  }

  /** Equal but for hidden memory, the interrupt latches and bit 4 of P, which no instruction looks at. */
  ghost predicate Matches(hidden: set<int>, m: Machine, n: Machine) {
    && m.v == n.v.(irq := m.v.irq, p := n.v.p.(b := m.v.p.b))
    && forall a :: a !in hidden ==> Read(m.mem, a) == Read(n.mem, a)
  }

  lemma MatchesTwice(hidden: set<int>, m: Machine, n: Machine, o: Machine)
    requires Matches(hidden, m, n) && Matches(hidden, n, o)
    ensures Matches(hidden, m, o)
  {
  }

  // ----- One service -----

  const RTI := 0x40

  /**
   A handler entered from `m`, in `m1`, has reached its RTI in `m2`: it keeps the registers, the mapping and
   the speed, balances S, leaves the three bytes pushed alone, and has changed hidden memory only.
   */
  ghost predicate Conforms(hidden: set<int>, m: Machine, m1: Machine, m2: Machine) {
    var r, v, u := Bare(m).core.r, m1.v, m2.v;
    && Stands(m2) && !u.irq.pending && Read(m2.mem, u.addr) == RTI
    && u.a == v.a && u.x == v.x && u.y == v.y && u.sp == v.sp && u.mpr == v.mpr && u.mpl == v.mpl
    && u.bm == v.bm && u.clockDiv == v.clockDiv && u.timerOn == v.timerOn
    && (forall a :: a !in hidden ==> Read(m2.mem, a) == Read(m.mem, a))
    && (forall a :: a in {Slot1(r), Slot2(r), Slot3(r)} ==> Read(m2.mem, a) == Read(m1.mem, a))
  }

  /** A pending interrupt is entered; otherwise the opcode on order is run. */
  lemma ChosenAt(m: Machine, lines: Lines)
    requires Stands(m)
    ensures var (i, s) := Chosen(m, lines);
      && Ready(s) && s == Bare(m).(core := Bare(m).core.(irq := s.core.irq)) && Proper(i)
      && (m.v.irq.pending ==> i.IInterrupt? && 256 <= i.vector < 65535)
      && (!m.v.irq.pending ==> i == InstrOf(Read(m.mem, m.v.addr), m.v.p.t))
  {
    hide AtBoundary, InstrOf, Proper;
    BeginServes(Bare(m), lines);
    DecodeServes(false, Bare(m));
    BoundaryReady(false, Begin(Bare(m), lines).s);
    var d := Begin(Bare(m), lines);
    InstrProper(d.opcode, d.s.core.r.p.t);
    if m.v.irq.pending {
      VectorOf(d.opcode, d.s.core.r.p.t);
    }
  }

  lemma VectorOf(opcode: int, tbit: bool)
    requires 0x101 <= opcode < 0x104
    ensures InstrOf(opcode, tbit) == IInterrupt(Vector(opcode)) && 256 <= Vector(opcode) < 65535
  {
  }

  lemma NextIs(m: Machine, lines: Lines)
    requires Stands(m)
    ensures var (i, s) := Chosen(m, lines);
      Ready(s) && Proper(i)
      && Next(m, lines).0 == Machine(View(Closing(i, Result(i, s).c)), Result(i, s).mem)
  {
    ChosenAt(m, lines);
    hide Stands, Result, Closing, Chosen, Proper;
  }

  /** Interrupt entry, as the instruction set has it. */
  lemma EntryFacts(m: Machine, lines: Lines)
    requires Stands(m) && m.v.irq.pending
    ensures var v, u := m.v, Next(m, lines).0.v;
      && u.a == v.a && u.x == v.x && u.y == v.y && u.sp == Dec8(Dec8(Dec8(v.sp))) && u.mpr == v.mpr
      && u.mpl == v.mpl && u.bm == v.bm && u.clockDiv == v.clockDiv && u.timerOn == v.timerOn
    ensures Next(m, lines).0.mem == EntryMem(Bare(m)) && !Next(m, lines).0.v.irq.pending
  {
    hide Stands, EntryMem, WordAt, Next, Chosen, Closing, View;
    ChosenAt(m, lines);
    NextIs(m, lines);
    var (i, s) := Chosen(m, lines);
    EntrySame(Bare(m), s);
    ClosingKeeps(i, EntryCore(i.vector, s));
  }

  lemma EntrySame(s: Cpu, u: Cpu)
    requires u == s.(core := s.core.(irq := u.core.irq))
    ensures EntryMem(u) == EntryMem(s)
  {
  }

  lemma ClosingKeeps(i: Instr, c: Core)
    ensures var v := View(Closing(i, c));
      && v.a == c.r.a && v.x == c.r.x && v.y == c.r.y && v.sp == c.r.sp && v.mpr == c.r.mpr && v.mpl == c.r.mpl
      && v.bm == c.bm && v.clockDiv == c.clockDiv && v.timerOn == c.timerOn
      && (PollsAtEnd(i) && c.r.p.i ==> !v.irq.pending)
  {
    hide Phys;
  }

  /** RTI, as the instruction set has it. */
  lemma ReturnFacts(m: Machine, lines: Lines)
    requires Stands(m) && !m.v.irq.pending && Read(m.mem, m.v.addr) == RTI
    requires Word16(Restored(Bare(m)).r.pc)
    ensures var c, n := Restored(Bare(m)), Next(m, lines).0;
      n.mem == m.mem
      && n.v == m.v.(sp := c.r.sp, p := c.r.p, pc := Inc16(c.r.pc), addr := Phys(m.v.mpr, c.r.pc), irq := n.v.irq)
  {
    hide Stands, Phys, Next, Chosen, Restored, Closing, Proper;
    ChosenAt(m, lines);
    NextIs(m, lines);
    var (i, s) := Chosen(m, lines);
    ReturnIs(m.v.p.t);
    RestoredSame(Bare(m), s);
    ReturnView(m, s);
  }

  lemma ReturnView(m: Machine, s: Cpu)
    requires s == Bare(m).(core := Bare(m).core.(irq := s.core.irq)) && Word16(Restored(s).r.pc)
    ensures var c, v := Restored(s), View(Closing(IReturnInt, Restored(s)));
      v == m.v.(sp := c.r.sp, p := c.r.p, pc := Inc16(c.r.pc), addr := Phys(m.v.mpr, c.r.pc), irq := v.irq)
  {
    hide Phys, Restored, EndedKeepingT, Closing;
    RestoredKeeps(s);
    EndedTFetches(Restored(s));
    ClosingT(Restored(s));
  }

  lemma ClosingT(c: Core)
    ensures Closing(IReturnInt, c) == EndedKeepingT(c)
  {
  }

  lemma ReturnIs(tbit: bool)
    ensures InstrOf(RTI, tbit) == IReturnInt
  {
  }

  lemma RestoredSame(s: Cpu, u: Cpu)
    requires u == s.(core := s.core.(irq := u.core.irq))
    ensures Restored(u) == Restored(s).(irq := u.core.irq)
  {
  }

  /** Entry, a conforming handler and RTI change nothing that is not hidden. */
  lemma ServiceInvisible(hidden: set<int>, m: Machine, lines: Lines, m2: Machine, back: Lines)
    requires Stands(m) && m.v.irq.pending && Conforms(hidden, m, Next(m, lines).0, m2)
    ensures Matches(hidden, Next(m2, back).0, m)
  {
    hide Next, EntryMem, Restored, Phys, Slot1, Slot2, Slot3;
    var s, s2 := Bare(m), Bare(m2);
    EntryFacts(m, lines);
    BoundaryReady(false, s);
    BoundaryReady(false, s2);
    PulledBack(s, s2);
    BackIsWord(m.v.pc);
    ReturnFacts(m2, back);
    Backwards(m.v.pc);
  }

  /** The least handler, an RTI where the vector points, conforms. */
  lemma EmptyConforms(hidden: set<int>, m: Machine, lines: Lines)
    requires Stands(m) && m.v.irq.pending && Stands(Next(m, lines).0)
    requires Read(Next(m, lines).0.mem, Next(m, lines).0.v.addr) == RTI
    requires var r := Bare(m).core.r; {Slot1(r), Slot2(r), Slot3(r)} <= hidden
    ensures Conforms(hidden, m, Next(m, lines).0, IsaRun(Next(m, lines).0, []))
  {
    hide Next, Stands, Slot1, Slot2, Slot3, SavedStatus;
    EntryFacts(m, lines);
  }

  // ----- Histories -----

  /** An instruction of the program; or an interrupt entry, the handler up to its RTI, and that. */
  datatype Item = Main(lines: Lines) | Service(lines: Lines, body: seq<Lines>, back: Lines)

  function LinesOf(e: Item): (ls: seq<Lines>)
    ensures |ls| > 0
  {
    match e
    case Main(l) => [l]
    case Service(l, body, back) => [l] + body + [back]
  }

  function Flat(items: seq<Item>): seq<Lines> {
    if |items| == 0 then [] else LinesOf(items[0]) + Flat(items[1..])
  }

  function Mains(items: seq<Item>): nat {
    if |items| == 0 then 0 else (if items[0].Main? then 1 else 0) + Mains(items[1..])
  }

  /** The run from `m` has these items, and its handlers conform. */
  ghost predicate Serviced(hidden: set<int>, m: Machine, items: seq<Item>)
    decreases |items|
  {
    |items| == 0
    || (var e := items[0];
        && Stands(m) && e.Service? == m.v.irq.pending
        && (e.Service? ==>
            var m1 := Next(m, e.lines).0;
            Conforms(hidden, m, m1, IsaRun(m1, e.body)))
        && Serviced(hidden, IsaRun(m, LinesOf(e)), items[1..]))
  }

  const QUIET := Lines(false, false, false)

  function Quiet(k: nat): seq<Lines> {
    seq(k, _ => QUIET)
  }

  /** What the next instruction does outside hidden memory does not depend on hidden memory. */
  ghost predicate Insensitive(hidden: set<int>, n: Machine) {
    forall m: Machine, l: Lines :: Matches(hidden, m, n) && Stands(m) && !m.v.irq.pending ==>
      Matches(hidden, Next(m, l).0, Next(n, QUIET).0)
  }

  /** So for k instructions run without interrupts. */
  ghost predicate Steady(hidden: set<int>, n: Machine, k: nat)
    decreases k
  {
    k == 0 || (Insensitive(hidden, n) && Steady(hidden, Next(n, QUIET).0, k - 1))
  }

  lemma {:induction false} IsaRunAppend(m: Machine, xs: seq<Lines>, ys: seq<Lines>)
    ensures IsaRun(m, xs + ys) == IsaRun(IsaRun(m, xs), ys)
    decreases |xs|
  {
    hide Next;
    if |xs| == 0 {
      assert xs + ys == ys;
    } else {
      assert (xs + ys)[0] == xs[0] && (xs + ys)[1..] == xs[1..] + ys;
      IsaRunAppend(Next(m, xs[0]).0, xs[1..], ys);
    }
  }

  lemma RunOnce(m: Machine, l: Lines)
    ensures IsaRun(m, [l]) == Next(m, l).0
  {
    hide Next;
    assert IsaRun(Next(m, l).0, [l][1..]) == Next(m, l).0;
  }

  lemma ServiceRun(m: Machine, l: Lines, body: seq<Lines>, back: Lines)
    ensures IsaRun(m, [l] + body + [back]) == Next(IsaRun(Next(m, l).0, body), back).0
  {
    hide Next;
    IsaRunAppend(m, [l] + body, [back]);
    IsaRunAppend(m, [l], body);
    RunOnce(m, l);
    RunOnce(IsaRun(Next(m, l).0, body), back);
  }

  lemma QuietMore(n: Machine, k: nat)
    requires k > 0
    ensures IsaRun(n, Quiet(k)) == IsaRun(Next(n, QUIET).0, Quiet(k - 1))
  {
    hide Next;
    assert Quiet(k)[0] == QUIET && Quiet(k)[1..] == Quiet(k - 1);
  }

  /**
   Interrupts are transparent over whole runs: whatever requests come, and however often, a program whose
   instructions do not look at the handlers' memory ends as it does without interrupts, outside that memory.
   */
  lemma {:induction false} ServicesInvisible(hidden: set<int>, m: Machine, items: seq<Item>, n: Machine)
    requires Matches(hidden, m, n) && Serviced(hidden, m, items) && Steady(hidden, n, Mains(items))
    ensures Matches(hidden, IsaRun(m, Flat(items)), IsaRun(n, Quiet(Mains(items))))
    decreases |items|
  {
    hide Next, Matches, Conforms, Stands, Insensitive;
    if |items| == 0 {
      assert Quiet(0) == [];
    } else {
      var e, rest := items[0], items[1..];
      IsaRunAppend(m, LinesOf(e), Flat(rest));
      var m' := IsaRun(m, LinesOf(e));
      match e
      case Main(l) =>
        RunOnce(m, l);
        MainMatches(hidden, m, l, n);
        QuietMore(n, Mains(items));
        ServicesInvisible(hidden, m', rest, Next(n, QUIET).0);
      case Service(l, body, back) =>
        ServiceRun(m, l, body, back);
        ServiceInvisible(hidden, m, l, IsaRun(Next(m, l).0, body), back);
        MatchesTwice(hidden, m', m, n);
        ServicesInvisible(hidden, m', rest, n);
    }
  }

  lemma MainMatches(hidden: set<int>, m: Machine, l: Lines, n: Machine)
    requires Insensitive(hidden, n) && Matches(hidden, m, n) && Stands(m) && !m.v.irq.pending
    ensures Matches(hidden, Next(m, l).0, Next(n, QUIET).0)
  {
    hide Next, Matches, Stands;
  }

  /** The same for runs of the generated table. */
  lemma TableServices(hidden: set<int>, table: Table, s: Cpu, es: seq<Event>, t: Cpu, items: seq<Item>, n: Machine)
    requires IsTable(table) && AtBoundary(false, s) && Runs(table, s, es, t) && BranchesStay(table, s, es)
    requires Requests(es) == Flat(items) && Serviced(hidden, Visible(s), items)
    requires Matches(hidden, Visible(s), n) && Steady(hidden, n, Mains(items))
    ensures Matches(hidden, Visible(t), IsaRun(n, Quiet(Mains(items))))
  {
    hide Runs, BranchesStay, Requests, Flat, Serviced, Matches, Steady, Visible, AtBoundary;
    RunsRefine(table, s, es, t);
    ServicesInvisible(hidden, Visible(s), items, n);
  }
}
