/**
 What the arithmetic means: ADC and SBC on one byte and chained over any number of bytes, in binary and
 in packed decimal, signed overflow, and the order CMP gives.
 */
module HucArithmetic {
  import opened BitOps
  import opened HucMachine

  /** Two decimal digits in a byte. */
  predicate IsBcd(b: int) {
    0 <= b < 256 && b % 16 <= 9 && b / 16 <= 9
  }

  function Two(b: int): int {
    b / 16 * 10 + b % 16
  }

  lemma TwoRange(b: int, c: int)
    requires IsBcd(b) && IsBcd(c)
    ensures 0 <= Two(b) < 100 && (Two(b) == Two(c) ==> b == c)
  {
  }

  lemma Nibbles(h: int, l: int)
    requires 0 <= l < 16
    ensures (16 * h + l) / 16 == h && (16 * h + l) % 16 == l
  {
  }

  /** The upper digit: adjusted past 9, carried past 255. */
  lemma UpperSum(h: int, l: int)
    requires 0 <= h < 20 && 0 <= l < 10
    ensures var sum := 16 * h + l; var out := if sum > 0x9F then sum + 0x60 else sum;
      IsBcd(out % 256) && Two(out % 256) + 100 * Bit(out > 255) == 10 * h + l
  {
    if h >= 10 {
      BcdOf(h - 10, l);
    } else {
      BcdOf(h, l);
    }
  }

  /** A byte out of two digits. */
  lemma BcdOf(h: int, l: int)
    requires 0 <= h < 10 && 0 <= l < 10
    ensures IsBcd(16 * h + l) && Two(16 * h + l) == 10 * h + l && (16 * h + l) % 256 == 16 * h + l
    ensures (16 * (h + 16) + l) % 256 == 16 * h + l
  {
    Nibbles(h, l);
  }

  lemma LowerSum(l: int)
    requires 0 <= l < 20
    ensures var l6 := if l > 9 then l + 6 else l;
      0 <= l6 % 16 < 10 && 10 * Bit(l6 > 15) + l6 % 16 == l
  {
  }

  lemma UpperDifference(h: int, l: int)
    requires 6 <= h < 26 && 0 <= l < 10
    ensures var sum := 16 * h + l; var out := if sum <= 255 then sum - 0x60 else sum;
      IsBcd(out % 256) && Two(out % 256) + 100 * Bit(out > 255) == 10 * (h - 6) + l
  {
    if h >= 16 {
      BcdOf(h - 16, l);
    } else {
      BcdOf(h - 6, l);
    }
  }

  lemma LowerDifference(l: int)
    requires 6 <= l < 26
    ensures var l6 := if l <= 15 then l - 6 else l;
      0 <= l6 % 16 < 10 && 10 * Bit(l6 > 15) + l6 % 16 == l - 6
  {
  }

  lemma Complement(v: int)
    requires IsBcd(v)
    ensures (255 - v) % 16 == 15 - v % 16 && (255 - v) / 16 == 15 - v / 16
  {
    Nibbles(15 - v / 16, 15 - v % 16);
  }

  lemma DigitsOf(b: int)
    requires IsBcd(b)
    ensures 0 <= b / 16 < 10 && 0 <= b % 16 < 10 && Two(b) == 10 * (b / 16) + b % 16
  {
  }

  /** The end of both functions, from the digits on: `out` is the adjusted sum. */
  function Tail(out: int, w: int, p: Flags): AluOut {
    AluOut(out % 256, w, NZ(p, out % 256).(c := out > 255))
  }

  lemma TailKeeps(out: int, w: int, p: Flags)
    ensures var o := Tail(out, w, p);
      o.res == out % 256 && o.p.c == (out > 255) && o.p.d == p.d && o.p.v == p.v && o.p.z == (o.res == 0)
  {
    hide Bit7;
  }

  lemma AddDigits(a: int, v: int, p: Flags, k: int, d: int)
    requires IsBcd(a) && IsBcd(v)
    requires var l := a % 16 + v % 16 + Bit(p.c); var l6 := if l > 9 then l + 6 else l;
      k == Bit(l6 > 15) && d == l6 % 16
    ensures var sum := 16 * (a / 16 + v / 16 + k) + d;
      AddDecimal(a, v, p) == Tail(if sum > 0x9F then sum + 0x60 else sum, v, p)
  {
    hide Bit7, IsBcd;
  }

  lemma SubDigits(a: int, w: int, p: Flags, k: int, d: int)
    requires var l := a % 16 + w % 16 + Bit(p.c); var l6 := if l <= 15 then l - 6 else l;
      k == Bit(l6 > 15) && d == l6 % 16
    ensures var sum := 16 * (a / 16 + w / 16 + k) + d;
      SubDecimal(a, w, p) == Tail(if sum <= 255 then sum - 0x60 else sum, w, p)
  {
    hide Bit7;
  }

  /** One byte: the sum of both numbers and the carry, with a carry out from 100 on. */
  lemma AddByte(a: int, v: int, p: Flags)
    requires IsBcd(a) && IsBcd(v)
    ensures var o := AddDecimal(a, v, p);
      && IsBcd(o.res) && Two(o.res) + 100 * Bit(o.p.c) == Two(a) + Two(v) + Bit(p.c)
      && o.p.d == p.d && o.p.v == p.v && o.p.z == (o.res == 0)
  {
    hide IsBcd, Two, AddDecimal, Tail;
    DigitsOf(a);
    DigitsOf(v);
    var l := a % 16 + v % 16 + Bit(p.c);
    LowerSum(l);
    var l6 := if l > 9 then l + 6 else l;
    var k, d := Bit(l6 > 15), l6 % 16;
    UpperSum(a / 16 + v / 16 + k, d);
    AddDigits(a, v, p, k, d);
    var sum := 16 * (a / 16 + v / 16 + k) + d;
    TailKeeps(if sum > 0x9F then sum + 0x60 else sum, v, p);
  }

  /** One byte: the difference less the borrow, where carry means no borrow. */
  lemma SubByte(a: int, v: int, p: Flags)
    requires IsBcd(a) && IsBcd(v)
    ensures var o := SubDecimal(a, 255 - v, p);
      && IsBcd(o.res) && Two(o.res) - 100 * (1 - Bit(o.p.c)) == Two(a) - Two(v) - (1 - Bit(p.c))
      && o.p.d == p.d && o.p.v == p.v && o.p.z == (o.res == 0)
  {
    hide IsBcd, Two, SubDecimal, Tail;
    DigitsOf(a);
    DigitsOf(v);
    Complement(v);
    var l := a % 16 + (255 - v) % 16 + Bit(p.c);
    LowerDifference(l);
    var l6 := if l <= 15 then l - 6 else l;
    var k, d := Bit(l6 > 15), l6 % 16;
    UpperDifference(a / 16 + (255 - v) / 16 + k, d);
    SubDigits(a, 255 - v, p, k, d);
    var sum := 16 * (a / 16 + (255 - v) / 16 + k) + d;
    TailKeeps(if sum <= 255 then sum - 0x60 else sum, 255 - v, p);
  }

  // ----- One byte in binary -----

  /** A byte as a signed number. */
  function Signed8(b: byte): int {
    if b < 128 then b else b - 256
  }

  /** ADC in binary: sum and carry, and V where the signed sum does not fit a byte. */
  lemma AddMeans(a: byte, v: byte, p: Flags)
    ensures var o, s := AddBinary(a, v, p), Signed8(a) + Signed8(v) + Bit(p.c);
      && 0 <= o.res < 256 && o.res + 256 * Bit(o.p.c) == a + v + Bit(p.c)
      && (o.p.v <==> !(-128 <= s < 128)) && (!o.p.v ==> Signed8(o.res) == s)
      && (o.p.n <==> Signed8(o.res) < 0) && (o.p.z <==> o.res == 0) && o.p.d == p.d
  {
    hide Bit7, Overflow;
    var out := a + v + Bit(p.c);
    assert out % 256 == if out > 255 then out - 256 else out;
    SignBit(out % 256);
    OverflowMeans(a, v, Bit(p.c));
  }

  lemma OverflowMeans(a: byte, v: byte, c: int)
    requires 0 <= c <= 1
    ensures Overflow(a, v, a + v + c) <==> !(-128 <= Signed8(a) + Signed8(v) + c < 128)
  {
    hide Bit7;
    SignBit(a);
    SignBit(v);
    SumBit(a + v + c);
  }

  lemma SumBit(out: int)
    requires 0 <= out < 512
    ensures Bit7(out) <==> 128 <= out < 256 || 384 <= out
  {
  }

  lemma SignBit(b: byte)
    ensures Bit7(b) <==> b >= 128
  {
  }

  /** SBC in binary: difference and borrow, and V where the signed difference does not fit a byte. */
  lemma SubMeans(a: byte, v: byte, p: Flags)
    ensures var o, s := AddBinary(a, 255 - v, p), Signed8(a) - Signed8(v) - (1 - Bit(p.c));
      && 0 <= o.res < 256 && o.res - 256 * (1 - Bit(o.p.c)) == a - v - (1 - Bit(p.c))
      && (o.p.v <==> !(-128 <= s < 128)) && (!o.p.v ==> Signed8(o.res) == s)
      && (o.p.n <==> Signed8(o.res) < 0) && (o.p.z <==> o.res == 0) && o.p.d == p.d
  {
    hide AddBinary;
    AddMeans(a, 255 - v, p);
  }

  /** CMP, CPX and CPY order unsigned bytes: C for at least, Z for equal. */
  lemma CompareMeans(r: byte, v: byte, p: Flags)
    ensures var o := Compare(r, v, p);
      && (o.p.c <==> r >= v) && (o.p.z <==> r == v) && (o.p.n <==> (r - v) % 256 >= 128)
  {
    hide Bit7;
    var o := if r >= v then r - v else r - v + 512;
    assert (r - v) % 512 == o && (r - v) % 256 == o % 256;
    SignBit(o % 256);
    SumBit(o);
  }

  // ----- Numbers of any length, lowest byte first; decimal if `dec` -----

  function Radix(dec: bool): nat {
    if dec then 100 else 256
  }

  function DigitValue(dec: bool, b: byte): nat {
    if dec then Two(b) else b
  }

  predicate Fit(dec: bool, xs: seq<byte>) {
    dec ==> forall x <- xs :: IsBcd(x)
  }

  function Power(dec: bool, n: nat): (h: nat)
    ensures h > 0
  {
    if n == 0 then 1 else Radix(dec) * Power(dec, n - 1)
  }

  function Number(dec: bool, xs: seq<byte>): nat {
    if |xs| == 0 then 0 else DigitValue(dec, xs[0]) + Radix(dec) * Number(dec, xs[1..])
  }

  lemma ValueRange(dec: bool, b: byte, c: byte)
    requires dec ==> IsBcd(b) && IsBcd(c)
    ensures DigitValue(dec, b) < Radix(dec) && (DigitValue(dec, b) == DigitValue(dec, c) ==> b == c)
  {
    if dec {
      TwoRange(b, c);
    }
  }

  lemma {:induction false} NumberRange(dec: bool, xs: seq<byte>)
    requires Fit(dec, xs)
    ensures Number(dec, xs) < Power(dec, |xs|)
  {
    if |xs| > 0 {
      ValueRange(dec, xs[0], xs[0]);
      NumberRange(dec, xs[1..]);
    }
  }

  lemma {:induction false} NumberInjective(dec: bool, xs: seq<byte>, ys: seq<byte>)
    requires |xs| == |ys| && Fit(dec, xs) && Fit(dec, ys) && Number(dec, xs) == Number(dec, ys)
    ensures xs == ys
  {
    hide DigitValue;
    if |xs| > 0 {
      ValueRange(dec, xs[0], ys[0]);
      ValueRange(dec, ys[0], xs[0]);
      NumberInjective(dec, xs[1..], ys[1..]);
      assert xs == [xs[0]] + xs[1..] && ys == [ys[0]] + ys[1..];
    }
  }

  /** LDA x, f y, STA: byte after byte, the flags carried along. */
  function Chain(f: AluOp, xs: seq<byte>, ys: seq<byte>, r: Regs): (out: (seq<byte>, Flags))
    requires |xs| == |ys|
    ensures |out.0| == |xs|
    decreases |xs|
  {
    if |xs| == 0 then ([], r.p)
    else
      var loaded := AluEval(LD, r.(a := 0), xs[0]);
      var o := AluEval(f, r.(a := xs[0], p := loaded.p), ys[0]);
      var rest := Chain(f, xs[1..], ys[1..], r.(p := o.p));
      ([AsByte(o.res)] + rest.0, rest.1)
  }

  lemma AddStep(x: byte, y: byte, r: Regs)
    requires r.p.d ==> IsBcd(x) && IsBcd(y)
    ensures var o := AluEval(ADC, r.(a := x, p := NZ(r.p, x)), y);
      && 0 <= o.res < 256 && (r.p.d ==> IsBcd(o.res)) && o.p.d == r.p.d
      && DigitValue(r.p.d, o.res) + Radix(r.p.d) * Bit(o.p.c) ==
        DigitValue(r.p.d, x) + DigitValue(r.p.d, y) + Bit(r.p.c)
      && (!r.p.d ==> (o.p.v <==> !(-128 <= Signed8(x) + Signed8(y) + Bit(r.p.c) < 128)))
  {
    hide AddDecimal, AddBinary, Signed8, Two, Bit7;
    if r.p.d {
      AddByte(x, y, NZ(r.p, x));
      assert IsBcd(AddDecimal(x, y, NZ(r.p, x)).res);
    } else {
      AddMeans(x, y, NZ(r.p, x));
    }
  }

  lemma SubStep(x: byte, y: byte, r: Regs)
    requires r.p.d ==> IsBcd(x) && IsBcd(y)
    ensures var o := AluEval(SBC, r.(a := x, p := NZ(r.p, x)), y);
      && 0 <= o.res < 256 && (r.p.d ==> IsBcd(o.res)) && o.p.d == r.p.d
      && DigitValue(r.p.d, o.res) - Radix(r.p.d) * (1 - Bit(o.p.c)) ==
        DigitValue(r.p.d, x) - DigitValue(r.p.d, y) - (1 - Bit(r.p.c))
      && (!r.p.d ==> (o.p.v <==> !(-128 <= Signed8(x) - Signed8(y) - (1 - Bit(r.p.c)) < 128)))
  {
    hide SubDecimal, AddBinary, Signed8, Two, Bit7;
    if r.p.d {
      SubByte(x, y, NZ(r.p, x));
      assert IsBcd(SubDecimal(x, 255 - y, NZ(r.p, x)).res);
    } else {
      SubMeans(x, y, NZ(r.p, x));
    }
  }

  lemma LoadIs(r: Regs, x: byte)
    ensures AluEval(LD, r.(a := 0), x).p == NZ(r.p, x)
  {
  }

  lemma Scaled(b: int, h: int, c: int)
    ensures b * (h * c) == (b * h) * c
  {
  }

  lemma {:induction false} AddChain(xs: seq<byte>, ys: seq<byte>, r: Regs)
    requires |xs| == |ys| && Fit(r.p.d, xs) && Fit(r.p.d, ys)
    ensures var out, d := Chain(ADC, xs, ys, r), r.p.d;
      && Fit(d, out.0) && out.1.d == d
      && Number(d, out.0) + Power(d, |xs|) * Bit(out.1.c) == Number(d, xs) + Number(d, ys) + Bit(r.p.c)
    decreases |xs|
  {
    hide AluEval, IsBcd, DigitValue, Radix;
    if |xs| > 0 {
      LoadIs(r, xs[0]);
      AddStep(xs[0], ys[0], r);
      var o := AluEval(ADC, r.(a := xs[0], p := NZ(r.p, xs[0])), ys[0]);
      AddChain(xs[1..], ys[1..], r.(p := o.p));
      var out, rest, d := Chain(ADC, xs, ys, r), Chain(ADC, xs[1..], ys[1..], r.(p := o.p)), r.p.d;
      assert out.0[0] == o.res && out.0[1..] == rest.0;
      Scaled(Radix(d), Power(d, |xs| - 1), Bit(out.1.c));
      Carried(Radix(d), DigitValue(d, o.res), DigitValue(d, xs[0]) + DigitValue(d, ys[0]) + Bit(r.p.c), Bit(o.p.c),
        Number(d, rest.0), Power(d, |xs| - 1) * Bit(out.1.c), Number(d, xs[1..]) + Number(d, ys[1..]));
      Distributed(Radix(d), Number(d, xs[1..]), Number(d, ys[1..]));
    }
  }

  /** One step of column addition. */
  lemma Carried(b: int, low: int, column: int, carry: int, rest: int, over: int, tail: int)
    requires low + b * carry == column && rest + over == tail + carry
    ensures low + b * rest + b * over == column + b * tail
  {
    assert b * (rest + over) == b * (tail + carry);
  }

  lemma Borrowed(b: int, low: int, column: int, borrow: int, rest: int, over: int, tail: int)
    requires low - b * borrow == column && rest - over == tail - borrow
    ensures low + b * rest - b * over == column + b * tail
  {
    assert b * (rest - over) == b * (tail - borrow);
  }

  lemma Distributed(b: int, x: int, y: int)
    ensures b * (x + y) == b * x + b * y && b * (x - y) == b * x - b * y
  {
  }

  lemma {:induction false} SubChain(xs: seq<byte>, ys: seq<byte>, r: Regs)
    requires |xs| == |ys| && Fit(r.p.d, xs) && Fit(r.p.d, ys)
    ensures var out, d := Chain(SBC, xs, ys, r), r.p.d;
      && Fit(d, out.0) && out.1.d == d
      && Number(d, out.0) - Power(d, |xs|) * (1 - Bit(out.1.c)) == Number(d, xs) - Number(d, ys) - (1 - Bit(r.p.c))
    decreases |xs|
  {
    hide AluEval, IsBcd, DigitValue, Radix;
    if |xs| > 0 {
      LoadIs(r, xs[0]);
      SubStep(xs[0], ys[0], r);
      var o := AluEval(SBC, r.(a := xs[0], p := NZ(r.p, xs[0])), ys[0]);
      SubChain(xs[1..], ys[1..], r.(p := o.p));
      var out, rest, d := Chain(SBC, xs, ys, r), Chain(SBC, xs[1..], ys[1..], r.(p := o.p)), r.p.d;
      assert out.0[0] == o.res && out.0[1..] == rest.0;
      Scaled(Radix(d), Power(d, |xs| - 1), 1 - Bit(out.1.c));
      Borrowed(Radix(d), DigitValue(d, o.res), DigitValue(d, xs[0]) - DigitValue(d, ys[0]) - (1 - Bit(r.p.c)),
        1 - Bit(o.p.c),
        Number(d, rest.0), Power(d, |xs| - 1) * (1 - Bit(out.1.c)), Number(d, xs[1..]) - Number(d, ys[1..]));
      Distributed(Radix(d), Number(d, xs[1..]), Number(d, ys[1..]));
    }
  }

  /** The ADC chain is addition modulo 256^n or 100^n, and its carry says whether the sum did not fit. */
  lemma ChainSum(xs: seq<byte>, ys: seq<byte>, r: Regs)
    requires |xs| == |ys| && Fit(r.p.d, xs) && Fit(r.p.d, ys)
    ensures var out, d := Chain(ADC, xs, ys, r), r.p.d; var sum := Number(d, xs) + Number(d, ys) + Bit(r.p.c);
      Number(d, out.0) == sum % Power(d, |xs|) && (out.1.c <==> sum >= Power(d, |xs|))
  {
    hide Chain, Fit;
    AddChain(xs, ys, r);
    var out, d := Chain(ADC, xs, ys, r), r.p.d;
    NumberRange(d, out.0);
    ModOf(Number(d, out.0), Power(d, |xs|), Number(d, xs) + Number(d, ys) + Bit(r.p.c), out.1.c);
  }

  lemma ModOf(v: nat, h: nat, sum: nat, carry: bool)
    requires v < h && v + h * Bit(carry) == sum
    ensures v == sum % h && (carry <==> sum >= h)
  {
    if carry {
      assert (v + h) / h == 1 && sum == h * 1 + v;
    } else {
      assert sum / h == 0;
    }
  }

  /** The SBC chain is subtraction with borrow: no carry out means 256^n or 100^n was borrowed. */
  lemma ChainDifference(xs: seq<byte>, ys: seq<byte>, r: Regs)
    requires |xs| == |ys| && Fit(r.p.d, xs) && Fit(r.p.d, ys)
    ensures var out, d := Chain(SBC, xs, ys, r), r.p.d; var diff := Number(d, xs) - Number(d, ys) - (1 - Bit(r.p.c));
      && (out.1.c <==> diff >= 0)
      && Number(d, out.0) == if diff >= 0 then diff else diff + Power(d, |xs|)
  {
    hide Chain, Fit;
    SubChain(xs, ys, r);
    NumberRange(r.p.d, Chain(SBC, xs, ys, r).0);
  }

  /**
   Subtracting what was added, with the borrow that matches the carry that went in, restores every
   byte, and borrows exactly if the addition carried.
   */
  lemma AddThenSubtract(xs: seq<byte>, ys: seq<byte>, r: Regs)
    requires |xs| == |ys| && Fit(r.p.d, xs) && Fit(r.p.d, ys)
    ensures var sum := Chain(ADC, xs, ys, r);
      var back := Chain(SBC, sum.0, ys, r.(p := sum.1.(c := !r.p.c)));
      back.0 == xs && back.1.c == !sum.1.c
  {
    hide Chain, Fit, Number, Power;
    AddChain(xs, ys, r);
    var sum, d := Chain(ADC, xs, ys, r), r.p.d;
    var q := r.(p := sum.1.(c := !r.p.c));
    SubChain(sum.0, ys, q);
    var back := Chain(SBC, sum.0, ys, q);
    NumberRange(d, back.0);
    NumberRange(d, xs);
    Undone(Number(d, sum.0), Number(d, xs), Number(d, ys), Number(d, back.0), Power(d, |xs|), r.p.c, sum.1.c, back.1.c);
    NumberInjective(d, back.0, xs);
  }

  lemma Undone(sum: int, x: int, y: int, back: int, h: int, c: bool, carried: bool, kept: bool)
    requires sum + h * Bit(carried) == x + y + Bit(c) && 0 <= x < h && 0 <= back < h
    requires back - h * (1 - Bit(kept)) == sum - y - (1 - Bit(!c))
    ensures back == x && kept == !carried
  {
  }

  // ----- Signed numbers of any length -----

  /** Two's complement: the last byte carries the sign. */
  function SignedNumber(xs: seq<byte>): int
    requires |xs| > 0
  {
    if |xs| == 1 then Signed8(xs[0]) else xs[0] + 256 * SignedNumber(xs[1..])
  }

  function HalfPower(n: nat): (h: int)
    requires n > 0
    ensures h > 0
  {
    if n == 1 then 128 else 256 * HalfPower(n - 1)
  }

  /** In binary, the carry chain of n bytes sets V exactly if the signed sum does not fit n bytes. */
  lemma {:induction false} SumOverflows(xs: seq<byte>, ys: seq<byte>, r: Regs)
    requires |xs| == |ys| > 0 && !r.p.d
    ensures var out, s := Chain(ADC, xs, ys, r), SignedNumber(xs) + SignedNumber(ys) + Bit(r.p.c);
      out.1.v <==> !(-HalfPower(|xs|) <= s < HalfPower(|xs|))
    decreases |xs|
  {
    hide AluEval, Signed8;
    LoadIs(r, xs[0]);
    AddStep(xs[0], ys[0], r);
    var o := AluEval(ADC, r.(a := xs[0], p := NZ(r.p, xs[0])), ys[0]);
    if |xs| > 1 {
      SumOverflows(xs[1..], ys[1..], r.(p := o.p));
      Inner(o.res, SignedNumber(xs[1..]) + SignedNumber(ys[1..]) + Bit(o.p.c), HalfPower(|xs| - 1));
    }
  }

  /** And subtraction likewise. */
  lemma {:induction false} DifferenceOverflows(xs: seq<byte>, ys: seq<byte>, r: Regs)
    requires |xs| == |ys| > 0 && !r.p.d
    ensures var out, s := Chain(SBC, xs, ys, r), SignedNumber(xs) - SignedNumber(ys) - (1 - Bit(r.p.c));
      out.1.v <==> !(-HalfPower(|xs|) <= s < HalfPower(|xs|))
    decreases |xs|
  {
    hide AluEval, Signed8;
    LoadIs(r, xs[0]);
    SubStep(xs[0], ys[0], r);
    var o := AluEval(SBC, r.(a := xs[0], p := NZ(r.p, xs[0])), ys[0]);
    if |xs| > 1 {
      DifferenceOverflows(xs[1..], ys[1..], r.(p := o.p));
      Inner(o.res, SignedNumber(xs[1..]) - SignedNumber(ys[1..]) - (1 - Bit(o.p.c)), HalfPower(|xs| - 1));
    }
  }

  lemma Inner(low: int, high: int, h: int)
    requires 0 <= low < 256
    ensures -h <= high < h <==> -(256 * h) <= low + 256 * high < 256 * h
  {
  }
}
