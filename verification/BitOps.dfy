/** Bitwise operators on natural numbers, written as arithmetic on binary digits. */
module BitOps {

  function Pow2(k: nat): (r: nat)
    ensures r > 0
  {
    if k == 0 then 1 else 2 * Pow2(k - 1)
  }

  function BitOr(a: nat, b: nat): nat
    decreases a + b
  {
    if a == 0 then b
    else if b == 0 then a
    else 2 * BitOr(a / 2, b / 2) + (if a % 2 == 1 || b % 2 == 1 then 1 else 0)
  }

  function BitAnd(a: nat, b: nat): nat
    decreases a + b
  {
    if a == 0 || b == 0 then 0
    else 2 * BitAnd(a / 2, b / 2) + (if a % 2 == 1 && b % 2 == 1 then 1 else 0)
  }

  function BitXor(a: nat, b: nat): nat
    decreases a + b
  {
    if a == 0 then b
    else if b == 0 then a
    else 2 * BitXor(a / 2, b / 2) + (if a % 2 != b % 2 then 1 else 0)
  }

  function Bit(on: bool): nat {
    if on then 1 else 0
  }

  /** The number whose binary digits, lowest first, are `bs`. */
  function FromDigits(bs: seq<bool>): (u: nat)
    ensures u < Pow2(|bs|)
  {
    if |bs| == 0 then 0 else Bit(bs[0]) + 2 * FromDigits(bs[1..])
  }

  predicate Digit(u: nat, k: nat) {
    if k == 0 then u % 2 == 1 else Digit(u / 2, k - 1)
  }

  lemma {:induction false} DigitOfDigits(bs: seq<bool>, k: nat)
    requires k < |bs|
    ensures Digit(FromDigits(bs), k) == bs[k]
  {
    assert FromDigits(bs) / 2 == FromDigits(bs[1..]);
    if k > 0 {
      DigitOfDigits(bs[1..], k - 1);
    }
  }

  lemma {:induction false} OrCommutes(a: nat, b: nat)
    ensures BitOr(a, b) == BitOr(b, a)
    decreases a + b
  {
    if a > 0 && b > 0 {
      OrCommutes(a / 2, b / 2);
    }
  }

  lemma {:induction false} AndCommutes(a: nat, b: nat)
    ensures BitAnd(a, b) == BitAnd(b, a)
    decreases a + b
  {
    if a > 0 && b > 0 {
      AndCommutes(a / 2, b / 2);
    }
  }

  lemma {:induction false} XorCommutes(a: nat, b: nat)
    ensures BitXor(a, b) == BitXor(b, a)
    decreases a + b
  {
    if a > 0 && b > 0 {
      XorCommutes(a / 2, b / 2);
    }
  }

  lemma PowValues()
    ensures Pow2(8) == 256 && Pow2(13) == 8192
  {
    assert Pow2(4) == 16;
    assert Pow2(8) == 256;
    assert Pow2(12) == 4096;
  }

  /** The operators do not leave the width of their operands. */
  lemma {:induction false} WidthKept(a: nat, b: nat, k: nat)
    requires a < Pow2(k) && b < Pow2(k)
    ensures BitOr(a, b) < Pow2(k) && BitAnd(a, b) < Pow2(k) && BitXor(a, b) < Pow2(k)
    decreases k
  {
    if k > 0 && a > 0 && b > 0 {
      WidthKept(a / 2, b / 2, k - 1);
    }
  }

  /** Or of a number below 2^k and a multiple of 2^k is their sum. */
  lemma {:induction false} OrDisjoint(a: nat, m: nat, b: nat, k: nat)
    requires a < Pow2(k) && m == Pow2(k) * b
    ensures BitOr(a, m) == a + m
    decreases k
  {
    if k > 0 && a > 0 && m > 0 {
      var h := Pow2(k - 1) * b;
      assert m == 2 * h;
      OrDisjoint(a / 2, h, b, k - 1);
    }
  }

  lemma {:induction false} SetDigitFits(v: nat, k: nat, n: nat)
    requires v < Pow2(n) && k < n && !Digit(v, k)
    ensures v + Pow2(k) < Pow2(n)
    decreases k
  {
    var h := Pow2(n - 1);
    assert Pow2(n) == 2 * h && v == 2 * (v / 2) + v % 2;
    if k > 0 {
      assert Pow2(k) == 2 * Pow2(k - 1) && Digit(v, k) == Digit(v / 2, k - 1);
      hide Digit, Pow2;
      SetDigitFits(v / 2, k - 1, n - 1);
    }
  }

  lemma {:induction false} DigitAtMost(v: nat, k: nat)
    requires Digit(v, k)
    ensures Pow2(k) <= v
  {
    if k > 0 {
      DigitAtMost(v / 2, k - 1);
    }
  }
}
