/** The sample ring between emulator and audio callback: 32-bit positions that wrap, and the queue they stand for. */
module AudioRing {
  import opened Common
  import opened BitOps

  datatype Pair = Pair(l: real, r: real)

  const U32 := 0x1_0000_0000

  lemma AndStep(p: nat, h: nat)
    requires h > 0
    ensures BitAnd(p, 2 * h - 1) == 2 * BitAnd(p / 2, h - 1) + p % 2
  {
    var m := 2 * h - 1;
    assert m / 2 == h - 1 && m % 2 == 1;
  }

  /** p & mask, where mask is one less than a power of two. */
  lemma {:induction false} MaskIsRemainder(p: nat, k: nat)
    ensures BitAnd(p, Pow2(k) - 1) == p % Pow2(k)
    decreases k
  {
    hide BitAnd;
    if k > 0 {
      var h := Pow2(k - 1);
      AndStep(p, h);
      MaskIsRemainder(p / 2, k - 1);
      DoubleRemainder(p, h);
    } else {
      AndZero(p);
    }
  }

  lemma AndZero(p: nat)
    ensures BitAnd(p, 0) == 0
  {
  }

  lemma DoubleRemainder(p: nat, h: nat)
    requires h > 0
    ensures p % (2 * h) == 2 * ((p / 2) % h) + p % 2
  {
    var q, r := (p / 2) / h, (p / 2) % h;
    assert p / 2 == q * h + r;
    assert p == q * (2 * h) + (2 * r + p % 2);
    EuclidUnique(p, 2 * h, q, 2 * r + p % 2);
  }

  lemma {:induction false} PowSplit(k: nat, n: nat)
    requires k <= n
    ensures Pow2(n) == Pow2(k) * Pow2(n - k)
    decreases n - k
  {
    if k < n {
      PowSplit(k, n - 1);
    }
  }

  lemma Distribute(q: nat, m: nat, a: nat, c: nat)
    ensures (q * m + a) * c == q * (c * m) + a * c
  {
    assert q * (c * m) == (q * m) * c;
  }

  lemma ModMod(p: nat, c: nat, m: nat)
    requires c > 0 && m > 0 && c * m > 0
    ensures (p % (c * m)) % c == p % c
  {
    var n := c * m;
    var q, r := p / n, p % n;
    var a, b := r / c, r % c;
    assert p == q * n + r && r == a * c + b;
    Distribute(q, m, a, c);
    EuclidUnique(p, c, q * m + a, b);
  }

  lemma Pow32()
    ensures Pow2(32) == U32
  {
    assert Pow2(8) == 256;
    PowSplit(8, 16);
    PowSplit(16, 32);
  }

  /** Reducing a position modulo 2^32 does not change its slot. */
  lemma WrapKeepsSlot(p: nat, k: nat)
    requires k <= 32
    ensures (p % U32) % Pow2(k) == p % Pow2(k)
  {
    hide Pow2;
    Pow32();
    PowSplit(k, 32);
    ModMod(p, Pow2(k), Pow2(32 - k));
  }

  // ----- Queues in a ring -----

  /** Slot of the element i places after position r. */
  function At(r: nat, i: nat, c: nat): (s: nat)
    requires c > 0
    ensures s < c
  {
    (r + i) % c
  }

  /** From position r on, the ring holds q. */
  ghost predicate Holds(data: seq<Pair>, r: nat, q: seq<Pair>) {
    |data| > 0 && |q| <= |data| && forall i: nat :: i < |q| ==> data[At(r, i, |data|)] == q[i]
  }

  lemma HoldsFits(data: seq<Pair>, r: nat, q: seq<Pair>)
    ensures Holds(data, r, q) ==> |q| <= |data|
  {
  }

  /** Two positions less than a ring apart have different slots. */
  lemma SlotsDiffer(r: nat, i: nat, n: nat, c: nat)
    requires i < n < c
    ensures At(r, i, c) != At(r, n, c)
  {
    var p, d := r + i, n - i;
    var q, m := p / c, p % c;
    assert p == q * c + m;
    if m + d < c {
      EuclidUnique(p + d, c, q, m + d);
    } else {
      assert p + d == (q + 1) * c + (m + d - c);
      EuclidUnique(p + d, c, q + 1, m + d - c);
    }
  }

  lemma HoldsPush(data: seq<Pair>, r: nat, q: seq<Pair>, p: Pair)
    requires Holds(data, r, q) && |q| < |data|
    ensures Holds(data[At(r, |q|, |data|) := p], r, q + [p])
  {
    hide At;
    forall i: nat | i < |q|
      ensures At(r, i, |data|) != At(r, |q|, |data|)
    {
      SlotsDiffer(r, i, |q|, |data|);
    }
  }

  lemma WrapSum(x: nat, i: nat)
    ensures (x % U32 + i) % U32 == (x + i) % U32
  {
  }

  lemma AtWrapped(x: nat, i: nat, k: nat)
    requires k <= 32
    ensures At(x % U32, i, Pow2(k)) == At(x, i, Pow2(k))
  {
    hide Pow2;
    WrapSum(x, i);
    WrapKeepsSlot(x % U32 + i, k);
    WrapKeepsSlot(x + i, k);
  }

  /** Moving the read position on by n drops n elements. */
  lemma HoldsDrop(data: seq<Pair>, r: nat, q: seq<Pair>, n: nat, k: nat)
    requires Holds(data, r, q) && n <= |q| && |data| == Pow2(k) && k <= 32
    ensures Holds(data, (r + n) % U32, q[n..])
  {
    hide Pow2;
    forall i: nat | i < |q| - n
      ensures data[At((r + n) % U32, i, |data|)] == q[n..][i]
    {
      AtWrapped(r + n, i, k);
      assert At(r + n, i, |data|) == At(r, n + i, |data|);
    }
  }

  lemma PositionsMeet(r: nat, n: nat, m: nat)
    requires n <= m
    ensures ((r + n) % U32 + (m - n)) % U32 == (r + m) % U32
  {
  }

  /** In 32 bits, w - r is the distance that was added. */
  lemma Distance(r: nat, n: nat)
    requires r < U32 && n < U32
    ensures ((r + n) % U32 - r) % U32 == n
  {
  }

  lemma BackFrom(r: nat, n: nat, keep: nat)
    requires keep <= n
    ensures ((r + n) % U32 - keep) % U32 == (r + (n - keep)) % U32
  {
  }

  lemma {:induction false} PowMonotone(a: nat, b: nat)
    requires a <= b
    ensures Pow2(a) <= Pow2(b)
    decreases b - a
  {
    if a < b {
      PowMonotone(a, b - 1);
    }
  }

  lemma CapacityBelow(k: nat)
    requires k <= 31
    ensures Pow2(k) < U32
  {
    Pow32();
    PowMonotone(k, 31);
  }

  /** The ring holds `whole` from r on, but for places i to pad - 1. */
  ghost predicate HoldsAround(data: seq<Pair>, r: nat, whole: seq<Pair>, i: nat, pad: nat) {
    && i <= pad <= |whole| <= |data| && |data| > 0
    && forall n: nat :: n < |whole| && (n < i || pad <= n) ==> data[At(r, n, |data|)] == whole[n]
  }

  lemma AroundMore(data: seq<Pair>, r: nat, whole: seq<Pair>, i: nat, pad: nat)
    requires HoldsAround(data, r, whole, i, pad) && i < pad
    ensures HoldsAround(data[At(r, i, |data|) := whole[i]], r, whole, i + 1, pad)
  {
    hide At;
    forall n: nat | n < |whole| && (n < i || pad <= n)
      ensures At(r, n, |data|) != At(r, i, |data|)
    {
      if n < i {
        SlotsDiffer(r, n, i, |data|);
      } else {
        SlotsDiffer(r, i, n, |data|);
      }
    }
  }

  /** In front of a queue that starts pad places on. */
  lemma AroundStart(data: seq<Pair>, r: nat, front: seq<Pair>, q: seq<Pair>, k: nat)
    requires Holds(data, (r + |front|) % U32, q) && |front| + |q| <= |data| == Pow2(k) && k <= 32
    ensures HoldsAround(data, r, front + q, 0, |front|)
  {
    hide At, Pow2;
    var whole, pad := front + q, |front|;
    forall n: nat | pad <= n < |whole|
      ensures data[At(r, n, |data|)] == whole[n]
    {
      AtWrapped(r + pad, n - pad, k);
      AtShift(r, pad, n - pad, |data|);
    }
  }

  lemma AroundAll(data: seq<Pair>, r: nat, whole: seq<Pair>, pad: nat)
    requires HoldsAround(data, r, whole, pad, pad)
    ensures Holds(data, r, whole)
  {
  }

  lemma BackWrapped(r: nat, pad: nat, i: nat)
    requires i <= pad < U32
    ensures ((r - pad) % U32 + i) % U32 == (r - pad + i) % U32
  {
  }

  class Ring {
    const data: array<Pair>
    const capacity: nat
    const mask: nat
    var writePos: nat
    var readPos: nat
    ghost const bits: nat            // capacity == 2^bits
    ghost var queue: seq<Pair>       // what is buffered, oldest first

    ghost predicate Valid()
      reads this, data
    {
      && bits <= 31 && capacity == Pow2(bits) == data.Length && mask == capacity - 1
      && writePos < U32 && readPos < U32
      && Holds(data[..], readPos, queue) && writePos == (readPos + |queue|) % U32
    }

    /** init, with a power of two. */
    constructor (ghost k: nat, capacity: nat)
      requires k <= 31 && capacity == Pow2(k)
      ensures Valid() && queue == [] && this.capacity == capacity && fresh(data)
    {
      this.capacity, mask := capacity, capacity - 1;
      data := new Pair[capacity](_ => Pair(0.0, 0.0));
      writePos, readPos, bits, queue := 0, 0, k, [];
    }

    lemma SlotIs(p: nat)
      requires bits <= 31 && capacity == Pow2(bits) && mask == capacity - 1
      ensures BitAnd(p % U32, mask) == p % capacity < capacity
    {
      hide Pow2, BitAnd;
      MaskIsRemainder(p % U32, bits);
      WrapKeepsSlot(p, bits);
    }

    /** w - r in 32 bits. */
    function Queued(): nat
      reads this
    {
      (writePos - readPos) % U32
    }

    lemma QueuedIs()
      requires Valid()
      ensures Queued() == |queue| <= capacity < U32
    {
      hide Pow2;
      CapacityBelow(bits);
      Distance(readPos, |queue|);
    }

    /** One pair at the back, or none if the ring is full. */
    method Push(p: Pair)
      requires Valid()
      modifies `writePos, `queue, data
      ensures Valid() && queue == if |old(queue)| < capacity then old(queue) + [p] else old(queue)
    {
      hide Pow2, BitAnd, Holds, At;
      QueuedIs();
      var w := writePos;
      if Queued() >= capacity {
        return;
      }
      SlotIs(readPos + |queue|);
      AtIs(readPos, |queue|, capacity);
      HoldsPush(data[..], readPos, queue, p);
      data[BitAnd(w, mask)] := p;
      WrapSum(readPos + |queue|, 1);
      writePos := (w + 1) % U32;
      queue := queue + [p];
    }

    /** The copying loop of pop. */
    method CopyOut(count: nat) returns (out: seq<Pair>)
      requires Valid() && count <= |queue|
      ensures out == queue[..count]
    {
      hide Pow2, BitAnd, Holds;
      out := [];
      for i := 0 to count
        invariant out == queue[..i]
      {
        SlotIs(readPos + i);
        HeldAt(data[..], readPos, queue, i);
        out := out + [data[BitAnd((readPos + i) % U32, mask)]];
      }
    }

    /** Up to n pairs from the front. */
    method Pop(n: nat) returns (out: seq<Pair>)
      requires Valid()
      modifies `readPos, `queue
      ensures Valid() && out == old(queue)[..Min(n, |old(queue)|)] && queue == old(queue)[Min(n, |old(queue)|)..]
    {
      hide Pow2, Holds;
      QueuedIs();
      var avail := Queued();
      var count := if n < avail then n else avail;
      out := CopyOut(count);
      HoldsDrop(data[..], readPos, queue, count, bits);
      PositionsMeet(readPos, count, |queue|);
      readPos := (readPos + count) % U32;
      queue := queue[count..];
    }

    /** What is buffered, looked at and left there. */
    method Contents() returns (q: seq<Pair>)
      requires Valid()
      ensures q == queue
    {
      QueuedIs();
      q := CopyOut(Queued());
    }

    /** The pair at the read position, or silence. */
    method First() returns (p: Pair)
      requires Valid()
      ensures p == if |queue| > 0 then queue[0] else Pair(0.0, 0.0)
    {
      hide Pow2, BitAnd, Holds;
      QueuedIs();
      if writePos == readPos {
        return Pair(0.0, 0.0);
      }
      SlotIs(readPos);
      HeldAt(data[..], readPos, queue, 0);
      p := data[BitAnd(readPos % U32, mask)];
    }

    /** Everything buffered is dropped. */
    method Drain()
      requires Valid()
      modifies `readPos, `queue
      ensures Valid() && queue == []
    {
      readPos := writePos;
      queue := [];
    }

    lemma RampSlot(start: nat, pad: nat, i: nat)
      requires bits <= 31 && capacity == Pow2(bits) && mask == capacity - 1
      requires start == (readPos - pad) % U32 && i < pad < U32
      ensures BitAnd((readPos - pad + i) % U32, mask) == At(start, i, capacity)
    {
      hide Pow2, BitAnd, At;
      SlotIs(start + i);
      AtIs(start, i, capacity);
      BackWrapped(readPos, pad, i);
    }

    /** The writing loop of prepend_ramp. */
    method WriteRamp(target: Pair, pad: nat, ghost start: nat, ghost whole: seq<Pair>)
      requires Valid() && start == (readPos - pad) % U32 && pad < U32
      requires |whole| <= capacity ==> HoldsAround(data[..], start, whole, 0, pad)
      requires pad <= |whole| && whole[..pad] == Ramp(target, pad)
      modifies data
      ensures |whole| <= capacity ==> HoldsAround(data[..], start, whole, pad, pad)
    {
      hide Pow2, BitAnd, At, Ramp, RampPair, HoldsAround, Holds;
      for i := 0 to pad
        invariant |whole| <= capacity ==> HoldsAround(data[..], start, whole, i, pad)
      {
        RampSlot(start, pad, i);
        RampAt(target, pad, i);
        assert whole[i] == whole[..pad][i];
        if |whole| <= capacity {
          AroundMore(data[..], start, whole, i, pad);
        }
        data[BitAnd((readPos - pad + i) % U32, mask)] := RampPair(target, pad, i);
      }
    }

    /**
     A ramp up to the target goes in front of what is buffered if there is room for it. If not, it
     overwrites what it should precede: the positions then lie further apart than the ring is long.
     */
    method PrependRamp(target: Pair, pad: nat)
      requires Valid() && pad + |queue| < U32
      modifies `readPos, `queue, data
      ensures Valid() <==> pad + |old(queue)| <= capacity
      ensures queue == Ramp(target, pad) + old(queue) && Queued() == pad + |old(queue)|
    {
      hide Pow2, BitAnd, At, Ramp, Holds, HoldsAround;
      QueuedIs();
      if pad == 0 {
        RampNone(target);
        return;
      }
      ghost var start := (readPos - pad) % U32;
      ghost var whole := Ramp(target, pad) + queue;
      BackAndOn(readPos, pad);
      if |whole| <= capacity {
        AroundStart(data[..], start, Ramp(target, pad), queue, bits);
      }
      WriteRamp(target, pad, start, whole);
      if |whole| <= capacity {
        AroundAll(data[..], start, whole, pad);
      }
      SumWrapped(start, pad, |whole|);
      Distance(start, |whole|);
      readPos := (readPos - pad) % U32;
      queue := whole;
      HoldsFits(data[..], readPos, queue);
    }

    /** All but the newest `keep` pairs are dropped. */
    method KeepLatest(keep: nat)
      requires Valid()
      modifies `readPos, `queue
      ensures Valid() && queue == if |old(queue)| > keep then old(queue)[|old(queue)| - keep..] else old(queue)
    {
      hide Pow2, Holds;
      QueuedIs();
      if Queued() > keep {
        var n := |queue| - keep;
        HoldsDrop(data[..], readPos, queue, n, bits);
        PositionsMeet(readPos, n, |queue|);
        BackFrom(readPos, |queue|, keep);
        readPos := (writePos - keep) % U32;
        queue := queue[n..];
      }
    }
  }

  lemma HeldAt(data: seq<Pair>, r: nat, q: seq<Pair>, i: nat)
    requires Holds(data, r, q) && i < |q|
    ensures data[(r + i) % |data|] == q[i]
  {
    assert At(r, i, |data|) == (r + i) % |data|;
  }

  /** Pair i of a ramp of `pad` pairs from silence to the target. */
  function RampPair(target: Pair, pad: nat, i: nat): Pair
    requires i < pad
  {
    Pair(target.l * (i + 1) as real / pad as real, target.r * (i + 1) as real / pad as real)
  }

  function Ramp(target: Pair, pad: nat): (r: seq<Pair>)
    ensures |r| == pad
  {
    seq(pad, i requires 0 <= i < pad => RampPair(target, pad, i))
  }

  lemma RampAt(target: Pair, pad: nat, i: nat)
    requires i < pad
    ensures Ramp(target, pad)[i] == RampPair(target, pad, i)
  {
  }

  lemma RampNone(target: Pair)
    ensures Ramp(target, 0) == []
  {
  }

  /** The ramp ends at the target, where the first real pair follows. */
  lemma RampReaches(target: Pair, pad: nat)
    requires pad > 0
    ensures Ramp(target, pad)[pad - 1] == target
  {
    var p := pad as real;
    assert target.l * p / p == target.l && target.r * p / p == target.r;
  }

  lemma AtIs(r: nat, i: nat, c: nat)
    requires c > 0
    ensures At(r, i, c) == (r + i) % c
  {
  }

  lemma AtShift(r: nat, n: nat, i: nat, c: nat)
    requires c > 0
    ensures At(r + n, i, c) == At(r, n + i, c)
  {
  }

  lemma BackAndOn(r: nat, n: nat)
    requires r < U32 && n < U32
    ensures ((r - n) % U32 + n) % U32 == r
  {
  }

  lemma SumWrapped(r: nat, n: nat, m: nat)
    requires n <= m
    ensures ((r + n) % U32 + (m - n)) % U32 == (r + m) % U32
  {
  }
}
