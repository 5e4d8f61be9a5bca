/** The frame hash: the table-driven CRC-32 of section 8 of RFC 1952, and the division it stands for. */
module Crc32 {

  const POLYNOMIAL: bv32 := 0xEDB88320
  const ONES: bv32 := 0xFFFFFFFF

  function Xor(x: bv32, y: bv32): bv32 { x ^ y }

  function Half(w: bv32): bv32 { w >> 1 }

  predicate Odd(w: bv32) { w & 1 == 1 }

  // ----- Bit by bit -----

  /** One step of the reflected division: shift out the low bit, subtract the divisor if it was set. */
  function BitStep(c: bv32): bv32 {
    if Odd(c) then Xor(POLYNOMIAL, Half(c)) else Half(c)
  }

  function BitSteps(c: bv32, n: nat): bv32
    decreases n
  {
    if n == 0 then c else BitSteps(BitStep(c), n - 1)
  }

  function BitValue(b: bool): bv32 {
    if b then 1 else 0
  }

  /** One message bit goes in. */
  function Feed(c: bv32, b: bool): bv32 {
    BitStep(Xor(c, BitValue(b)))
  }

  /** The register after a message has been shifted in, one bit at a time. */
  function Serial(c: bv32, bits: seq<bool>): bv32
    decreases |bits|
  {
    if |bits| == 0 then c else Serial(Feed(c, bits[0]), bits[1..])
  }

  /** A byte is sent lowest bit first. */
  function ByteBits(b: bv8): (bits: seq<bool>)
    ensures |bits| == 8
  {
    [b & 1 == 1, (b >> 1) & 1 == 1, (b >> 2) & 1 == 1, (b >> 3) & 1 == 1,
     (b >> 4) & 1 == 1, (b >> 5) & 1 == 1, (b >> 6) & 1 == 1, (b >> 7) & 1 == 1]
  }

  function Bits(data: seq<bv8>): (bits: seq<bool>)
    ensures |bits| == 8 * |data|
  {
    if |data| == 0 then [] else ByteBits(data[0]) + Bits(data[1..])
  }

  /** The CRC-32 of a buffer: the register starts at all ones and is complemented at the end. */
  function Crc(data: seq<bv8>): bv32 {
    Xor(Serial(ONES, Bits(data)), ONES)
  }

  // ----- Linearity -----

  lemma BitStepLinear(x: bv32, y: bv32)
    ensures BitStep(Xor(x, y)) == Xor(BitStep(x), BitStep(y))
  {
    hide Xor, Half, Odd;
    XorHalf(x, y);
    XorOdd(x, y);
    XorShuffle(POLYNOMIAL, Half(x), Half(y));
  }

  lemma XorHalf(x: bv32, y: bv32)
    ensures Half(Xor(x, y)) == Xor(Half(x), Half(y))
  {
  }

  lemma XorOdd(x: bv32, y: bv32)
    ensures Odd(Xor(x, y)) <==> Odd(x) != Odd(y)
  {
  }

  lemma XorAssoc(x: bv32, y: bv32, z: bv32)
    ensures Xor(Xor(x, y), z) == Xor(x, Xor(y, z))
  {
  }

  lemma XorComm(x: bv32, y: bv32)
    ensures Xor(x, y) == Xor(y, x)
  {
  }

  lemma XorSelf(x: bv32)
    ensures Xor(x, x) == 0 && Xor(x, 0) == x && Xor(0, x) == x
  {
  }

  lemma XorTwice(x: bv32, y: bv32)
    ensures Xor(x, Xor(x, y)) == y && Xor(Xor(y, x), x) == y
  {
    hide Xor;
    XorAssoc(x, x, y);
    XorAssoc(y, x, x);
    XorSelf(x);
    XorSelf(y);
  }

  lemma XorSwap(x: bv32, y: bv32, z: bv32)
    ensures Xor(x, Xor(y, z)) == Xor(Xor(x, z), y) == Xor(y, Xor(x, z))
  {
    hide Xor;
    XorAssoc(x, z, y);
    XorComm(y, z);
    XorComm(y, Xor(x, z));
  }

  lemma XorShuffle(p: bv32, a: bv32, b: bv32)
    ensures Xor(p, Xor(a, b)) == Xor(Xor(p, a), b) == Xor(a, Xor(p, b))
    ensures Xor(Xor(p, a), Xor(p, b)) == Xor(a, b)
  {
    hide Xor;
    XorAssoc(p, a, b);
    XorSwap(p, a, b);
    XorAssoc(p, a, Xor(p, b));
    XorSwap(a, p, b);
    XorTwice(p, Xor(a, b));
  }

  lemma BitStepInjective(x: bv32, y: bv32)
    requires BitStep(x) == BitStep(y)
    ensures x == y
  {
  }

  lemma {:induction false} BitStepsInjective(x: bv32, y: bv32, n: nat)
    requires BitSteps(x, n) == BitSteps(y, n)
    ensures x == y
    decreases n
  {
    hide BitStep;
    if n > 0 {
      BitStepsInjective(BitStep(x), BitStep(y), n - 1);
      BitStepInjective(x, y);
    }
  }

  lemma {:induction false} BitStepsAdd(c: bv32, m: nat, n: nat)
    ensures BitSteps(c, m + n) == BitSteps(BitSteps(c, m), n)
    decreases m
  {
    hide BitStep;
    if m > 0 {
      BitStepsAdd(BitStep(c), m - 1, n);
    }
  }

  lemma {:induction false} SerialAppend(c: bv32, xs: seq<bool>, ys: seq<bool>)
    ensures Serial(c, xs + ys) == Serial(Serial(c, xs), ys)
    decreases |xs|
  {
    hide Feed;
    if |xs| == 0 {
      assert xs + ys == ys;
    } else {
      assert (xs + ys)[1..] == xs[1..] + ys;
      SerialAppend(Feed(c, xs[0]), xs[1..], ys);
    }
  }

  function Double(w: bv32): bv32 { w << 1 }

  function Prepend(w: bv32, b: bool): bv32 {
    Xor(Double(w), BitValue(b))
  }

  predicate Below(w: bv32, l: bv32) { w < l }

  /** Up to 32 bits as a word, first bit lowest. */
  function WordOf(bits: seq<bool>): bv32
    requires |bits| <= 32
  {
    if |bits| == 0 then 0 else Prepend(WordOf(bits[1..]), bits[0])
  }

  const TOP: bv32 := 0x80000000

  lemma Undouble(w: bv32)
    requires Below(w, TOP)
    ensures BitStep(Double(w)) == w
  {
  }

  /** Of a word, a step consumes the first bit and leaves the others to be mixed in. */
  lemma HeadOfWord(w: bv32, b: bool, c: bv32)
    requires Below(w, TOP)
    ensures BitStep(Xor(c, Prepend(w, b))) == Xor(Feed(c, b), w)
  {
    hide BitStep, Xor, Double, BitValue, Below;
    XorSwap(c, Double(w), BitValue(b));
    BitStepLinear(Xor(c, BitValue(b)), Double(w));
    Undouble(w);
  }

  function Halved(w: bv32, n: nat): bv32
    decreases n
  {
    if n == 0 then w else Halved(Half(w), n - 1)
  }

  lemma {:induction false} HalvedZero(n: nat)
    ensures Halved(0, n) == 0
  {
    if n > 0 {
      assert Half(0) == 0;
      HalvedZero(n - 1);
    }
  }

  lemma {:induction false} HalvedAdd(w: bv32, m: nat, n: nat)
    ensures Halved(w, m + n) == Halved(Halved(w, m), n)
    decreases m
  {
    hide Half;
    if m > 0 {
      HalvedAdd(Half(w), m - 1, n);
    }
  }

  lemma DoubleBelow(w: bv32, l: bv32, b: bool)
    requires Below(w, Half(l))
    ensures Below(Prepend(w, b), l)
  {
  }

  lemma AboveZero(l: bv32)
    requires l != 0
    ensures Below(0, l)
  {
  }

  /** n bits stay below any number that survives n halvings. */
  lemma {:induction false} WordBelow(bits: seq<bool>, l: bv32)
    requires |bits| <= 32 && Halved(l, |bits|) != 0
    ensures Below(WordOf(bits), l)
    decreases |bits|
  {
    hide Prepend, Half, Below;
    if |bits| > 0 {
      WordBelow(bits[1..], Half(l));
      DoubleBelow(WordOf(bits[1..]), l, bits[0]);
    } else {
      AboveZero(l);
    }
  }

  lemma HalvedFour(w: bv32)
    ensures Halved(w, 4) == w >> 4
  {
    HalvedUnfold(w);
    assert Half(Half(Half(Half(w)))) == w >> 4;
  }

  lemma HalvedUnfold(w: bv32)
    ensures Halved(w, 4) == Half(Half(Half(Half(w)))) && Halved(w, 3) == Half(Half(Half(w)))
  {
    hide Half;
    assert Halved(w, 4) == Halved(Half(w), 3) && Halved(Half(w), 3) == Halved(Half(Half(w)), 2);
    assert Halved(w, 3) == Halved(Half(w), 2);
  }

  lemma TopBit()
    ensures Halved(TOP, 31) == 1
  {
    HalvedFour(TOP);
    HalvedAdd(TOP, 4, 27);
    HalvedFour(0x08000000);
    HalvedAdd(0x08000000, 4, 23);
    HalvedFour(0x00800000);
    HalvedAdd(0x00800000, 4, 19);
    HalvedFour(0x00080000);
    HalvedAdd(0x00080000, 4, 15);
    HalvedFour(0x00008000);
    HalvedAdd(0x00008000, 4, 11);
    HalvedFour(0x00000800);
    HalvedAdd(0x00000800, 4, 7);
    HalvedFour(0x00000080);
    HalvedAdd(0x00000080, 4, 3);
    HalvedUnfold(8);
  }

  lemma WordFits(bits: seq<bool>)
    requires |bits| <= 31
    ensures Below(WordOf(bits), TOP)
  {
    hide Half, Below, WordOf;
    TopBit();
    HalvedAdd(TOP, |bits|, 31 - |bits|);
    HalvedZero(31 - |bits|);
    WordBelow(bits, TOP);
  }

  lemma XorZero(c: bv32)
    ensures Xor(c, 0) == c
  {
  }

  /** Feeding bits one at a time is mixing their word in first and stepping that many times. */
  lemma {:induction false} SerialWord(c: bv32, bits: seq<bool>)
    requires |bits| <= 32
    ensures Serial(c, bits) == BitSteps(Xor(c, WordOf(bits)), |bits|)
    decreases |bits|
  {
    hide BitStep, Feed, Prepend, Xor, Below;
    if |bits| == 0 {
      XorZero(c);
    } else {
      var w := WordOf(bits[1..]);
      WordFits(bits[1..]);
      HeadOfWord(w, bits[0], c);
      SerialWord(Feed(c, bits[0]), bits[1..]);
    }
  }

  // ----- Byte by byte, by table -----

  function Low8(x: bv32): bv32 { x & 0xFF }

  function Shift8(x: bv32): bv32 { x >> 8 }

  /** What the table holds for the byte i. */
  function TableEntry(i: bv32): bv32 {
    BitSteps(i, 8)
  }

  /** One turn of crc32_buf's loop: table[(crc ^ p[i]) & 0xFF] ^ (crc >> 8). */
  function ByteStep(c: bv32, b: bv8): bv32 {
    Xor(TableEntry(Low8(Xor(c, b as bv32))), Shift8(c))
  }

  lemma {:induction false} BitStepsLinear(x: bv32, y: bv32, n: nat)
    ensures BitSteps(Xor(x, y), n) == Xor(BitSteps(x, n), BitSteps(y, n))
    decreases n
  {
    hide BitStep, Xor;
    if n > 0 {
      BitStepLinear(x, y);
      BitStepsLinear(BitStep(x), BitStep(y), n - 1);
    }
  }

  lemma {:induction false} EvenSteps(h: bv32)
    requires Low8(h) == 0
    ensures BitSteps(h, 8) == Shift8(h)
  {
    var h1 := Half(h);
    var h2 := Half(h1);
    var h3 := Half(h2);
    var h4 := Half(h3);
    var h5 := Half(h4);
    var h6 := Half(h5);
    var h7 := Half(h6);
    EvenHalves(h);
    hide Half, Odd, Low8, Shift8;
    assert BitSteps(h, 8) == BitSteps(h1, 7) == BitSteps(h2, 6) == BitSteps(h3, 5) == BitSteps(h4, 4);
    assert BitSteps(h4, 4) == BitSteps(h5, 3) == BitSteps(h6, 2) == BitSteps(h7, 1) == BitSteps(Half(h7), 0);
  }

  predicate Clear(h: bv32, m: bv32) { h & m == 0 }

  lemma ClearStep(h: bv32, m: bv32)
    requires Clear(h, (m << 1) | 1) && m < 0x80000000
    ensures !Odd(h) && Clear(Half(h), m)
  {
  }

  lemma HalfFour(h: bv32)
    ensures Half(Half(Half(Half(h)))) == h >> 4 && (h >> 4) >> 4 == Shift8(h)
  {
  }

  lemma EvenHalves(h: bv32)
    requires Low8(h) == 0
    ensures !Odd(h) && !Odd(Half(h)) && !Odd(Half(Half(h))) && !Odd(Half(Half(Half(h))))
    ensures var h4 := Half(Half(Half(Half(h))));
      !Odd(h4) && !Odd(Half(h4)) && !Odd(Half(Half(h4))) && !Odd(Half(Half(Half(h4)))) &&
        Half(Half(Half(Half(h4)))) == Shift8(h)
  {
    assert Clear(h, 0xFF);
    hide Odd, Half, Clear;
    var h4 := Half(Half(Half(Half(h))));
    ClearStep(h, 0x7F);
    ClearStep(Half(h), 0x3F);
    ClearStep(Half(Half(h)), 0x1F);
    ClearStep(Half(Half(Half(h))), 0xF);
    ClearStep(h4, 7);
    ClearStep(Half(h4), 3);
    ClearStep(Half(Half(h4)), 1);
    ClearStep(Half(Half(Half(h4))), 0);
    HalfFour(h);
    HalfFour(h >> 4);
  }

  function High24(x: bv32): bv32 { x & 0xFFFFFF00 }

  lemma SplitLow(x: bv32)
    ensures x == Xor(Low8(x), High24(x)) && Low8(High24(x)) == 0 && Shift8(High24(x)) == Shift8(x)
  {
  }

  lemma ByteIsLow(c: bv32, b: bv8)
    ensures Shift8(Xor(c, b as bv32)) == Shift8(c)
  {
  }

  function Chain8(b0: bool, b1: bool, b2: bool, b3: bool, b4: bool, b5: bool, b6: bool, b7: bool): bv32 {
    Prepend(Prepend(Prepend(Prepend(Prepend(Prepend(Prepend(Prepend(0, b7), b6), b5), b4), b3), b2), b1), b0)
  }

  lemma WordOfEight(bits: seq<bool>)
    requires |bits| == 8
    ensures WordOf(bits) == Chain8(bits[0], bits[1], bits[2], bits[3], bits[4], bits[5], bits[6], bits[7])
  {
    hide Prepend;
    var t1 := bits[1..];
    var t2 := t1[1..];
    var t3 := t2[1..];
    var t4 := t3[1..];
    var t5 := t4[1..];
    var t6 := t5[1..];
    var t7 := t6[1..];
    assert WordOf(t7[1..]) == 0;
    assert WordOf(t7) == Prepend(0, bits[7]);
    assert WordOf(t5) == Prepend(WordOf(t6), bits[5]) && WordOf(t6) == Prepend(WordOf(t7), bits[6]);
    assert WordOf(t3) == Prepend(WordOf(t4), bits[3]) && WordOf(t4) == Prepend(WordOf(t5), bits[4]);
    assert WordOf(t1) == Prepend(WordOf(t2), bits[1]) && WordOf(t2) == Prepend(WordOf(t3), bits[2]);
  }

  lemma BitsOfByte(b: bv8)
    ensures WordOf(ByteBits(b)) == b as bv32
  {
    WordOfEight(ByteBits(b));
    ChainIsByte(b);
  }

  lemma ChainIsByte(b: bv8)
    ensures var s := ByteBits(b); Chain8(s[0], s[1], s[2], s[3], s[4], s[5], s[6], s[7]) == b as bv32
  {
  }

  /** A turn of crc32_buf's loop shifts eight message bits in. */
  lemma ByteStepSerial(c: bv32, b: bv8)
    ensures ByteStep(c, b) == Serial(c, ByteBits(b)) == BitSteps(Xor(c, b as bv32), 8)
  {
    hide Xor, BitSteps, Low8, Shift8, High24, ByteBits, Prepend;
    var x := Xor(c, b as bv32);
    SerialWord(c, ByteBits(b));
    BitsOfByte(b);
    SplitLow(x);
    BitStepsLinear(Low8(x), High24(x), 8);
    EvenSteps(High24(x));
    ByteIsLow(c, b);
  }

  /** crc32_buf's loop over a buffer. */
  function ByteRun(c: bv32, data: seq<bv8>): bv32 {
    if |data| == 0 then c else ByteStep(ByteRun(c, data[..|data| - 1]), data[|data| - 1])
  }

  lemma {:induction false} BitsAppend(xs: seq<bv8>, ys: seq<bv8>)
    ensures Bits(xs + ys) == Bits(xs) + Bits(ys)
    decreases |xs|
  {
    hide ByteBits;
    if |xs| == 0 {
      assert xs + ys == ys;
    } else {
      assert (xs + ys)[1..] == xs[1..] + ys;
      BitsAppend(xs[1..], ys);
    }
  }

  lemma BitsOne(b: bv8)
    ensures Bits([b]) == ByteBits(b)
  {
    hide ByteBits;
    assert [b][1..] == [];
    assert Bits([]) == [];
  }

  /** The table form computes the division, for every buffer. */
  lemma {:induction false} ByteRunSerial(c: bv32, data: seq<bv8>)
    ensures ByteRun(c, data) == Serial(c, Bits(data))
    decreases |data|
  {
    hide ByteStep, ByteBits, Feed;
    if |data| > 0 {
      var n := |data| - 1;
      ByteRunSerial(c, data[..n]);
      ByteStepSerial(ByteRun(c, data[..n]), data[n]);
      assert data == data[..n] + [data[n]];
      BitsAppend(data[..n], [data[n]]);
      BitsOne(data[n]);
      SerialAppend(c, Bits(data[..n]), ByteBits(data[n]));
    }
  }

  lemma IndexIsByte(x: bv32)
    ensures 0 <= Low8(x) as int < 256
    ensures (Low8(x) as int) as bv32 == Low8(x)
  {
  }

  lemma StepIs(c: bv32)
    ensures BitStep(c) == if c & 1 != 0 then 0xEDB88320 ^ (c >> 1) else c >> 1
  {
  }

  /** crc32_buf with its static table. */
  class FrameHash {
    const table: array<bv32>
    var init: bool

    ghost predicate Valid()
      reads this, table
    {
      table.Length == 256 && (init ==> forall i :: 0 <= i < 256 ==> table[i] == TableEntry(i as bv32))
    }

    constructor ()
      ensures Valid() && !init && fresh(table)
    {
      table := new bv32[256];
      init := false;
    }

    method FillTable()
      requires Valid() && !init
      modifies this, table
      ensures Valid() && init
    {
      hide BitStep;
      for i := 0 to 256
        invariant forall j :: 0 <= j < i ==> table[j] == TableEntry(j as bv32)
        invariant !init
      {
        var c := i as bv32;
        for k := 0 to 8
          invariant BitSteps(c, 8 - k) == TableEntry(i as bv32)
          invariant !init && forall j :: 0 <= j < i ==> table[j] == TableEntry(j as bv32)
        {
          assert BitSteps(c, 8 - k) == BitSteps(BitStep(c), 8 - k - 1);
          StepIs(c);
          c := if c & 1 != 0 then 0xEDB88320 ^ (c >> 1) else c >> 1;
        }
        table[i] := c;
      }
      init := true;
    }

    /** The CRC-32 of any buffer, whether the table was filled before or not. */
    method Crc32Buf(data: seq<bv8>) returns (crc: bv32)
      requires Valid()
      modifies this, table
      ensures Valid() && crc == Crc(data)
    {
      if !init {
        FillTable();
      }
      crc := 0xFFFFFFFF;
      for i := 0 to |data|
        invariant Valid() && init
        invariant crc == ByteRun(ONES, data[..i])
      {
        crc := Turn(crc, data[i]);
        assert data[..i + 1][..i] == data[..i];
      }
      assert data[..|data|] == data;
      ByteRunSerial(ONES, data);
      crc := crc ^ 0xFFFFFFFF;
    }

    method Turn(c: bv32, b: bv8) returns (d: bv32)
      requires Valid() && init
      ensures d == ByteStep(c, b)
    {
      var index := (c ^ b as bv32) & 0xFF;
      IndexIsByte(c ^ b as bv32);
      d := table[index as int] ^ (c >> 8);
    }
  }

  // ----- What it detects -----

  lemma FeedInjective(c: bv32, d: bv32, b: bool)
    requires Feed(c, b) == Feed(d, b)
    ensures c == d
  {
    hide BitStep, Xor;
    BitStepInjective(Xor(c, BitValue(b)), Xor(d, BitValue(b)));
    XorTwice(BitValue(b), c);
    XorTwice(BitValue(b), d);
  }

  lemma {:induction false} SerialInjective(c: bv32, d: bv32, bits: seq<bool>)
    requires Serial(c, bits) == Serial(d, bits)
    ensures c == d
    decreases |bits|
  {
    hide Feed;
    if |bits| > 0 {
      SerialInjective(Feed(c, bits[0]), Feed(d, bits[0]), bits[1..]);
      FeedInjective(c, d, bits[0]);
    }
  }

  lemma PrependInjective(w: bv32, v: bv32, b: bool, d: bool)
    requires Below(w, TOP) && Below(v, TOP) && Prepend(w, b) == Prepend(v, d)
    ensures w == v && b == d
  {
  }

  lemma {:induction false} WordInjective(u: seq<bool>, v: seq<bool>)
    requires |u| == |v| <= 32 && WordOf(u) == WordOf(v)
    ensures u == v
    decreases |u|
  {
    hide Prepend, Below;
    if |u| > 0 {
      WordFits(u[1..]);
      WordFits(v[1..]);
      PrependInjective(WordOf(u[1..]), WordOf(v[1..]), u[0], v[0]);
      WordInjective(u[1..], v[1..]);
      assert u == [u[0]] + u[1..] && v == [v[0]] + v[1..];
    }
  }

  /** Up to 32 message bits can be read back from the register before and after them. */
  lemma WindowInjective(c: bv32, u: seq<bool>, v: seq<bool>)
    requires |u| == |v| <= 32 && Serial(c, u) == Serial(c, v)
    ensures u == v
  {
    hide Xor, BitStep, WordOf;
    SerialWord(c, u);
    SerialWord(c, v);
    BitStepsInjective(Xor(c, WordOf(u)), Xor(c, WordOf(v)), |u|);
    XorTwice(c, WordOf(u));
    XorTwice(c, WordOf(v));
    WordInjective(u, v);
  }

  lemma SerialParts(c: bv32, xs: seq<bool>, k: nat, m: nat)
    requires k <= m <= |xs|
    ensures Serial(c, xs) == Serial(Serial(Serial(c, xs[..k]), xs[k..m]), xs[m..])
  {
    hide Feed;
    assert xs == xs[..k] + xs[k..m] + xs[m..];
    SerialAppend(c, xs[..k] + xs[k..m], xs[m..]);
    SerialAppend(c, xs[..k], xs[k..m]);
  }

  lemma SameParts(xs: seq<bool>, ys: seq<bool>, k: nat, m: nat)
    requires k <= m <= |xs| == |ys|
    ensures xs[..k] == ys[..k] && xs[k..m] == ys[k..m] && xs[m..] == ys[m..] ==> xs == ys
  {
    assert xs == xs[..k] + xs[k..m] + xs[m..];
    assert ys == ys[..k] + ys[k..m] + ys[m..];
  }

  /** Messages that differ, but only inside 32 consecutive bits, leave different registers. */
  lemma BurstChanges(c: bv32, xs: seq<bool>, ys: seq<bool>, k: nat)
    requires |xs| == |ys| && xs != ys
    requires forall i :: 0 <= i < |xs| && !(k <= i < k + 32) ==> xs[i] == ys[i]
    ensures Serial(c, xs) != Serial(c, ys)
  {
    hide Serial;
    var n := |xs|;
    var l := if k < n then k else n;
    var m := if k + 32 < n then k + 32 else n;
    assert xs[..l] == ys[..l] && xs[m..] == ys[m..];
    SameParts(xs, ys, l, m);
    SerialParts(c, xs, l, m);
    SerialParts(c, ys, l, m);
    var d := Serial(c, xs[..l]);
    if Serial(c, xs) == Serial(c, ys) {
      SerialInjective(Serial(d, xs[l..m]), Serial(d, ys[l..m]), xs[m..]);
      WindowInjective(d, xs[l..m], ys[l..m]);
    }
  }

  lemma {:induction false} BitsAt(data: seq<bv8>, i: nat)
    requires i < 8 * |data|
    ensures Bits(data)[i] == ByteBits(data[i / 8])[i % 8]
    decreases |data|
  {
    hide ByteBits;
    if i >= 8 {
      BitsAt(data[1..], i - 8);
    }
  }

  lemma BytesDiffer(x: bv8, y: bv8)
    requires ByteBits(x) == ByteBits(y)
    ensures x == y
  {
    hide WordOf, ByteBits;
    BitsOfByte(x);
    BitsOfByte(y);
    assert x as bv32 == y as bv32;
    WidenInjective(x, y);
  }

  lemma WidenInjective(x: bv8, y: bv8)
    requires x as bv32 == y as bv32
    ensures x == y
  {
  }

  lemma {:induction false} BitsInjective(x: seq<bv8>, y: seq<bv8>)
    requires |x| == |y| && Bits(x) == Bits(y)
    ensures x == y
    decreases |x|
  {
    hide ByteBits;
    if |x| > 0 {
      assert Bits(x)[..8] == ByteBits(x[0]) && Bits(y)[..8] == ByteBits(y[0]);
      assert Bits(x)[8..] == Bits(x[1..]) && Bits(y)[8..] == Bits(y[1..]);
      BytesDiffer(x[0], y[0]);
      BitsInjective(x[1..], y[1..]);
      assert x == [x[0]] + x[1..] && y == [y[0]] + y[1..];
    }
  }

  /** Every error burst of up to 32 bits is detected, aligned to bytes or not, in a buffer of any length. */
  lemma BurstDetected(x: seq<bv8>, y: seq<bv8>, k: nat)
    requires |x| == |y| && x != y
    requires forall i :: 0 <= i < 8 * |x| && !(k <= i < k + 32) ==> Bits(x)[i] == Bits(y)[i]
    ensures Crc(x) != Crc(y)
  {
    hide Serial, Bits, Xor;
    if Bits(x) == Bits(y) {
      BitsInjective(x, y);
    }
    BurstChanges(ONES, Bits(x), Bits(y), k);
    var s, t := Serial(ONES, Bits(x)), Serial(ONES, Bits(y));
    XorTwice(ONES, s);
    XorTwice(ONES, t);
  }

  /** In particular: buffers that differ only inside four consecutive bytes hash differently. */
  lemma FourBytesDetected(x: seq<bv8>, y: seq<bv8>, k: nat)
    requires |x| == |y| && x != y && forall i :: 0 <= i < |x| && !(k <= i < k + 4) ==> x[i] == y[i]
    ensures Crc(x) != Crc(y)
  {
    hide Crc, Bits, ByteBits;
    forall i | 0 <= i < 8 * |x| && !(8 * k <= i < 8 * k + 32)
      ensures Bits(x)[i] == Bits(y)[i]
    {
      BitsAt(x, i);
      BitsAt(y, i);
    }
    BurstDetected(x, y, 8 * k);
  }

  function XorBits(xs: seq<bool>, ys: seq<bool>): (zs: seq<bool>)
    requires |xs| == |ys|
    ensures |zs| == |xs|
  {
    if |xs| == 0 then [] else [xs[0] != ys[0]] + XorBits(xs[1..], ys[1..])
  }

  lemma FeedLinear(c: bv32, d: bv32, a: bool, b: bool)
    ensures Feed(Xor(c, d), a != b) == Xor(Feed(c, a), Feed(d, b))
  {
    hide BitStep, Xor;
    XorBitValue(a, b);
    XorAssoc(c, d, Xor(BitValue(a), BitValue(b)));
    XorSwap(d, BitValue(a), BitValue(b));
    XorAssoc(c, BitValue(a), Xor(d, BitValue(b)));
    BitStepLinear(Xor(c, BitValue(a)), Xor(d, BitValue(b)));
  }

  lemma XorBitValue(a: bool, b: bool)
    ensures BitValue(a != b) == Xor(BitValue(a), BitValue(b))
  {
  }

  lemma {:induction false} SerialLinear(c: bv32, d: bv32, xs: seq<bool>, ys: seq<bool>)
    requires |xs| == |ys|
    ensures Serial(Xor(c, d), XorBits(xs, ys)) == Xor(Serial(c, xs), Serial(d, ys))
    decreases |xs|
  {
    hide Feed, Xor;
    if |xs| > 0 {
      FeedLinear(c, d, xs[0], ys[0]);
      SerialLinear(Feed(c, xs[0]), Feed(d, ys[0]), xs[1..], ys[1..]);
      assert XorBits(xs, ys)[1..] == XorBits(xs[1..], ys[1..]);
    }
  }

  /** Exactly which errors go unnoticed: those whose pattern alone divides without remainder. */
  lemma UndetectedIff(x: seq<bv8>, y: seq<bv8>)
    requires |x| == |y|
    ensures Crc(x) == Crc(y) <==> Serial(0, XorBits(Bits(x), Bits(y))) == 0
  {
    hide Serial, Bits, Xor;
    var s, t := Serial(ONES, Bits(x)), Serial(ONES, Bits(y));
    SerialLinear(ONES, ONES, Bits(x), Bits(y));
    XorSelf(ONES);
    XorSelf(s);
    XorTwice(s, t);
    XorTwice(ONES, s);
    XorTwice(ONES, t);
  }

  // ----- The residue -----

  /** The n low bytes of w, lowest first. */
  function LittleEndian(w: bv32, n: nat): (bytes: seq<bv8>)
    ensures |bytes| == n
    decreases n
  {
    if n == 0 then [] else [Low8(w) as bv8] + LittleEndian(Shift8(w), n - 1)
  }

  function Shifted(w: bv32, n: nat): bv32
    decreases n
  {
    if n == 0 then w else Shifted(Shift8(w), n - 1)
  }

  lemma {:induction false} WordSteps(c: bv32, w: bv32, n: nat)
    requires Shifted(w, n) == 0
    ensures Serial(c, Bits(LittleEndian(w, n))) == BitSteps(Xor(c, w), 8 * n)
    decreases n
  {
    hide Xor, Low8, Shift8, High24, ByteBits, Feed, BitStep;
    if n == 0 {
      XorSelf(c);
    } else {
      LowIsByte(w);
      var b := Low8(w) as bv8;
      var c1 := Serial(c, ByteBits(b));
      var rest := LittleEndian(Shift8(w), n - 1);
      SerialAppend(c, ByteBits(b), Bits(rest));
      assert LittleEndian(w, n)[1..] == rest;
      ByteStepSerial(c, b);
      SplitLow(w);
      XorAssoc(c, Low8(w), High24(w));
      BitStepsLinear(Xor(c, Low8(w)), High24(w), 8);
      EvenSteps(High24(w));
      BitStepsAdd(Xor(c, w), 8, 8 * (n - 1));
      WordSteps(c1, Shift8(w), n - 1);
    }
  }

  lemma LowIsByte(w: bv32)
    ensures Low8(w) <= 0xFF && (Low8(w) as bv8) as bv32 == Low8(w)
  {
  }

  lemma ShiftedOut(w: bv32)
    ensures Shifted(w, 4) == 0
  {
    assert Shifted(w, 4) == Shifted(Shift8(w), 3) == Shifted(Shift8(Shift8(w)), 2);
    assert Shifted(Shift8(Shift8(w)), 2) == Shifted(Shift8(Shift8(Shift8(w))), 1) == Shift8(Shift8(Shift8(Shift8(w))));
  }

  lemma EightSteps(v: seq<bv32>)
    requires |v| == 9 && forall i {:trigger v[i]} :: 0 <= i < 8 ==> BitStep(v[i]) == v[i + 1]
    ensures BitSteps(v[0], 8) == v[8]
  {
    hide BitStep;
    assert BitSteps(v[0], 8) == BitSteps(v[1], 7) == BitSteps(v[2], 6) == BitSteps(v[3], 5) == BitSteps(v[4], 4);
    assert BitSteps(v[4], 4) == BitSteps(v[5], 3) == BitSteps(v[6], 2) == BitSteps(v[7], 1) == BitSteps(v[8], 0);
  }

  lemma FirstByte()
    ensures BitSteps(0xFFFFFFFF, 8) == 0x2DFD1072
  {
    assert BitStep(0xFFFFFFFF) == 0x92477CDF && BitStep(0x92477CDF) == 0xA49B3D4F;
    assert BitStep(0xA49B3D4F) == 0xBFF51D87 && BitStep(0xBFF51D87) == 0xB2420DE3;
    assert BitStep(0xB2420DE3) == 0xB49985D1 && BitStep(0xB49985D1) == 0xB7F441C8;
    assert BitStep(0xB7F441C8) == 0x5BFA20E4 && BitStep(0x5BFA20E4) == 0x2DFD1072;
    hide BitStep;
    EightSteps([0xFFFFFFFF, 0x92477CDF, 0xA49B3D4F, 0xBFF51D87, 0xB2420DE3, 0xB49985D1, 0xB7F441C8, 0x5BFA20E4,
      0x2DFD1072]);
  }

  lemma SecondByte()
    ensures BitSteps(0x2DFD1072, 8) == 0xBE26ED00
  {
    assert BitStep(0x2DFD1072) == 0x16FE8839 && BitStep(0x16FE8839) == 0xE6C7C73C;
    assert BitStep(0xE6C7C73C) == 0x7363E39E && BitStep(0x7363E39E) == 0x39B1F1CF;
    assert BitStep(0x39B1F1CF) == 0xF1607BC7 && BitStep(0xF1607BC7) == 0x9508BEC3;
    assert BitStep(0x9508BEC3) == 0xA73CDC41 && BitStep(0xA73CDC41) == 0xBE26ED00;
    hide BitStep;
    EightSteps([0x2DFD1072, 0x16FE8839, 0xE6C7C73C, 0x7363E39E, 0x39B1F1CF, 0xF1607BC7, 0x9508BEC3, 0xA73CDC41,
      0xBE26ED00]);
  }

  lemma ThirdByte()
    ensures BitSteps(0xBE26ED00, 8) == 0x00BE26ED
  {
    assert BitStep(0xBE26ED00) == 0x5F137680 && BitStep(0x5F137680) == 0x2F89BB40;
    assert BitStep(0x2F89BB40) == 0x17C4DDA0 && BitStep(0x17C4DDA0) == 0x0BE26ED0;
    assert BitStep(0x0BE26ED0) == 0x05F13768 && BitStep(0x05F13768) == 0x02F89BB4;
    assert BitStep(0x02F89BB4) == 0x017C4DDA && BitStep(0x017C4DDA) == 0x00BE26ED;
    hide BitStep;
    EightSteps([0xBE26ED00, 0x5F137680, 0x2F89BB40, 0x17C4DDA0, 0x0BE26ED0, 0x05F13768, 0x02F89BB4, 0x017C4DDA,
      0x00BE26ED]);
  }

  lemma FourthByte()
    ensures BitSteps(0x00BE26ED, 8) == 0xDEBB20E3
  {
    assert BitStep(0x00BE26ED) == 0xEDE79056 && BitStep(0xEDE79056) == 0x76F3C82B;
    assert BitStep(0x76F3C82B) == 0xD6C16735 && BitStep(0xD6C16735) == 0x86D830BA;
    assert BitStep(0x86D830BA) == 0x436C185D && BitStep(0x436C185D) == 0xCC0E8F0E;
    assert BitStep(0xCC0E8F0E) == 0x66074787 && BitStep(0x66074787) == 0xDEBB20E3;
    hide BitStep;
    EightSteps([0x00BE26ED, 0xEDE79056, 0x76F3C82B, 0xD6C16735, 0x86D830BA, 0x436C185D, 0xCC0E8F0E, 0x66074787,
      0xDEBB20E3]);
  }

  lemma OnesSteps()
    ensures BitSteps(ONES, 32) == 0xDEBB20E3
  {
    hide BitStep, BitSteps;
    FirstByte();
    SecondByte();
    ThirdByte();
    FourthByte();
    BitStepsAdd(ONES, 8, 24);
    BitStepsAdd(BitSteps(ONES, 8), 8, 16);
    BitStepsAdd(BitSteps(BitSteps(ONES, 8), 8), 8, 8);
  }

  /** A buffer followed by its own hash, lowest byte first, always hashes to the same residue. */
  lemma Residue(data: seq<bv8>)
    ensures Crc(data + LittleEndian(Crc(data), 4)) == 0x2144DF1C
  {
    hide Serial, Bits, LittleEndian, Xor, BitSteps;
    var s, w := Serial(ONES, Bits(data)), Crc(data);
    BitsAppend(data, LittleEndian(w, 4));
    SerialAppend(ONES, Bits(data), Bits(LittleEndian(w, 4)));
    ShiftedOut(w);
    WordSteps(s, w, 4);
    XorTwice(s, ONES);
    OnesSteps();
    Complemented();
  }

  lemma Complemented()
    ensures Xor(0xDEBB20E3, ONES) == 0x2144DF1C
  {
  }
}
