/** The frame-rate meter: a ring of the last 240 samples and the rate over the last 2.5 seconds. */
module FpsMeter {
  import opened Common

  datatype Sample = Sample(frame: nat, time: real)

  const LEN := 240
  const WINDOW := 2.5

  /** Neither time nor frames run backwards. */
  ghost predicate Monotone(ss: seq<Sample>) {
    forall i, j :: 0 <= i < j < |ss| ==> ss[i].time <= ss[j].time && ss[i].frame <= ss[j].frame
  }

  function Retained(ss: seq<Sample>): seq<Sample> {
    if |ss| <= LEN then ss else ss[|ss| - LEN..]
  }

  /** The first sample of a list no older than the window. */
  function OldestWithin(ss: seq<Sample>, now: real): (o: nat)
    requires |ss| > 0 && now - ss[|ss| - 1].time <= WINDOW
    ensures o < |ss| && now - ss[o].time <= WINDOW
    ensures forall i :: 0 <= i < o ==> now - ss[i].time > WINDOW
  {
    if now - ss[0].time <= WINDOW then 0 else OldestWithin(ss[1..], now) + 1
  }

  /**
   The rate shown after a sample: frames per second since the oldest sample in the window, if that is
   half a second ago.
   */
  function Rate(ss: seq<Sample>, before: real): real
    requires |ss| > 0
  {
    var last := ss[|ss| - 1];
    var kept := Retained(ss);
    var first := kept[OldestWithin(kept, last.time)];
    if last.time - first.time < 0.5 then before
    else (last.frame - first.frame) as real / (last.time - first.time)
  }

  /** In time order, a backward scan that stops at the first sample outside the window finds the oldest one inside. */
  lemma ScanFinds(ss: seq<Sample>, now: real, o: nat)
    requires Monotone(ss) && |ss| > 0 && o < |ss| && now - ss[|ss| - 1].time <= WINDOW
    requires forall i :: o <= i < |ss| ==> now - ss[i].time <= WINDOW
    requires o > 0 ==> now - ss[o - 1].time > WINDOW
    ensures OldestWithin(ss, now) == o
  {
    var w := OldestWithin(ss, now);
    assert forall i :: 0 <= i < o ==> ss[i].time <= ss[o - 1].time;
    assert !(o < w);
  }

  /** From a to b, frames were made at `rate`. */
  predicate Steady(a: Sample, b: Sample, rate: real) {
    (b.frame - a.frame) as real == rate * (b.time - a.time)
  }

  /** A machine that makes frames at a steady rate is shown that rate, as soon as anything new is shown. */
  lemma SteadyRate(ss: seq<Sample>, before: real, rate: real)
    requires |ss| > 0 && forall i, j :: 0 <= i < j < |ss| ==> Steady(ss[i], ss[j], rate)
    ensures Rate(ss, before) == before || Rate(ss, before) == rate
  {
    hide Steady;
    var kept, n := Retained(ss), |ss| - 1;
    var o := OldestWithin(kept, ss[n].time);
    var i := |ss| - |kept| + o;
    assert kept[o] == ss[i];
    if i < n && ss[n].time - ss[i].time >= 0.5 {
      SteadyQuotient(ss[i], ss[n], rate);
    }
  }

  lemma SteadyQuotient(a: Sample, b: Sample, rate: real)
    requires Steady(a, b, rate) && b.time - a.time >= 0.5
    ensures (b.frame - a.frame) as real / (b.time - a.time) == rate
  {
    Divide(rate, b.time - a.time, (b.frame - a.frame) as real);
  }

  lemma Divide(r: real, e: real, f: real)
    requires e >= 0.5 && f == r * e
    ensures f / e == r
  {
  }

  // ----- The ring -----

  /** Slot of the sample k places before the one at `head`. */
  function Slot(head: nat, k: nat): (i: nat)
    requires head < LEN && k < LEN
    ensures i < LEN
  {
    (head + LEN - k) % LEN
  }

  /** The ring holds `kept`, newest at `head`. */
  ghost predicate Holds(fs: seq<nat>, ts: seq<real>, head: nat, kept: seq<Sample>) {
    && |fs| == |ts| == LEN && head < LEN && 0 < |kept| <= LEN
    && forall k :: 0 <= k < |kept| ==>
      fs[Slot(head, k)] == kept[|kept| - 1 - k].frame && ts[Slot(head, k)] == kept[|kept| - 1 - k].time
  }

  function Pushed(kept: seq<Sample>, x: Sample): (r: seq<Sample>)
    ensures |r| == if |kept| < LEN then |kept| + 1 else |kept|
  {
    if |kept| < LEN then kept + [x] else kept[1..] + [x]
  }

  lemma RetainedMore(ss: seq<Sample>, x: Sample)
    ensures Retained(ss + [x]) == Pushed(Retained(ss), x)
  {
  }

  lemma SlotBefore(h: nat, k: nat)
    requires h < LEN && 0 < k < LEN
    ensures Slot((h + 1) % LEN, k) == Slot(h, k - 1) && Slot(h, k - 1) != (h + 1) % LEN && Slot(h, 0) == h
  {
  }

  lemma HoldsMore(fs: seq<nat>, ts: seq<real>, head: nat, kept: seq<Sample>, x: Sample)
    requires Holds(fs, ts, head, kept)
    ensures var h := (head + 1) % LEN; Holds(fs[h := x.frame], ts[h := x.time], h, Pushed(kept, x))
  {
    hide Slot;
    var h := (head + 1) % LEN;
    var fs', ts', more := fs[h := x.frame], ts[h := x.time], Pushed(kept, x);
    SlotBefore(h, 1);
    forall k | 0 <= k < |more|
      ensures fs'[Slot(h, k)] == more[|more| - 1 - k].frame && ts'[Slot(h, k)] == more[|more| - 1 - k].time
    {
      if k > 0 {
        SlotBefore(head, k);
        assert more[|more| - 1 - k] == kept[|kept| - 1 - (k - 1)];
      }
    }
  }

  lemma HoldsOne(fs: seq<nat>, ts: seq<real>, x: Sample)
    requires |fs| == |ts| == LEN && fs[0] == x.frame && ts[0] == x.time
    ensures Holds(fs, ts, 0, [x])
  {
  }

  lemma MonotoneMore(ss: seq<Sample>, x: Sample)
    requires Monotone(ss) && |ss| > 0 && ss[|ss| - 1].time <= x.time && ss[|ss| - 1].frame <= x.frame
    ensures Monotone(ss + [x])
  {
    var n := |ss| - 1;
    assert forall i :: 0 <= i < n ==> ss[i].time <= ss[n].time && ss[i].frame <= ss[n].frame;
  }

  lemma RetainedMonotone(ss: seq<Sample>)
    requires Monotone(ss) && |ss| > 0
    ensures var kept := Retained(ss);
      |kept| > 0 && kept[|kept| - 1] == ss[|ss| - 1] && Monotone(kept)
      && forall i :: 0 <= i < |kept| ==> kept[i].frame <= ss[|ss| - 1].frame
  {
  }

  class Meter {
    var frame: nat
    var time: real
    const frames: array<nat>
    const times: array<real>
    var head: nat
    var count: nat
    var initialized: bool
    var actualFps: real
    ghost var samples: seq<Sample>      // all since the last reset

    ghost predicate Valid()
      reads this, frames, times
    {
      && frames.Length == LEN && times.Length == LEN
      && (!initialized ==> samples == [])
      && (initialized ==>
          && |samples| > 0 && samples[|samples| - 1] == Sample(frame, time) && Monotone(samples)
          && count == |Retained(samples)| && Holds(frames[..], times[..], head, Retained(samples)))
    }

    constructor ()
      ensures Valid() && !initialized && actualFps == 0.0 && fresh(frames) && fresh(times)
    {
      frames, times := new nat[LEN](_ => 0), new real[LEN](_ => 0.0);
      frame, time, head, count, initialized, actualFps := 0, 0.0, 0, 0, false, 0.0;
      samples := [];
    }

    method Reset()
      requires Valid()
      modifies this
      ensures Valid() && !initialized && actualFps == 0.0
    {
      actualFps := 0.0;
      frame, time, head, count, initialized := 0, 0.0, 0, 0, false;
      samples := [];
    }

    /** The first sample of a series; after time or frames ran backwards, of a new one. */
    method Start(master: nat, now: real)
      requires Valid()
      modifies this, frames, times
      ensures Valid() && initialized && samples == [Sample(master, now)] && actualFps == 0.0
    {
      frame, time, head, count := master, now, 0, 1;
      frames[0], times[0] := master, now;
      initialized := true;
      actualFps := 0.0;
      samples := [Sample(master, now)];
      HoldsOne(frames[..], times[..], Sample(master, now));
    }

    method Append(master: nat, now: real)
      requires Valid() && initialized && frame <= master && time <= now
      modifies `frame, `time, `head, `count, `samples, frames, times
      ensures Valid() && samples == old(samples) + [Sample(master, now)]
    {
      hide Monotone, Holds, Retained;
      ghost var kept := Retained(samples);
      MonotoneMore(samples, Sample(master, now));
      RetainedMore(samples, Sample(master, now));
      HoldsMore(frames[..], times[..], head, kept, Sample(master, now));
      RetainedSize(samples);
      frame, time := master, now;
      head := (head + 1) % LEN;
      Put(head, master, now);
      if count < LEN {
        count := count + 1;
      }
      samples := samples + [Sample(master, now)];
    }

    method Put(i: nat, master: nat, now: real)
      requires frames.Length == times.Length == LEN && i < LEN
      modifies frames, times
      ensures frames[..] == old(frames[..])[i := master] && times[..] == old(times[..])[i := now]
    {
      frames[i], times[i] := master, now;
    }

    /** The backward scan over the ring. */
    method ScanBack() returns (oldest: nat)
      requires Valid() && initialized
      ensures var kept := Retained(samples);
        && |kept| > 0 && time - kept[|kept| - 1].time <= WINDOW && oldest < LEN
        && Sample(frames[oldest], times[oldest]) == kept[OldestWithin(kept, time)]
    {
      hide Slot, Monotone, OldestWithin;
      oldest := head;
      ghost var kept := Retained(samples);
      RetainedMonotone(samples);
      SlotBefore(head, 1);
      var i := 1;
      while i < count
        invariant 1 <= i <= count && oldest == Slot(head, i - 1)
        invariant forall k :: count - i <= k < count ==> time - kept[k].time <= WINDOW
      {
        var idx := (head + LEN - i) % LEN;
        SlotIs(head, i);
        assert times[..][idx] == kept[count - 1 - i].time;
        if time - times[idx] > WINDOW {
          break;
        }
        oldest := idx;
        i := i + 1;
      }
      ScanFinds(kept, time, count - i);
      assert frames[..][oldest] == kept[count - i].frame && times[..][oldest] == kept[count - i].time;
    }

    /** update_fps_meter; `master` is None when no system is loaded. */
    method Update(master: Option<nat>, now: real)
      requires Valid()
      modifies this, frames, times
      ensures Valid()
      ensures master.None? ==> !initialized && actualFps == 0.0
      ensures master.Some? ==> initialized
      ensures master.Some? && (!old(initialized) || master.value < old(frame) || now < old(time)) ==>
        samples == [Sample(master.value, now)] && actualFps == 0.0
      ensures master.Some? && old(initialized) && master.value >= old(frame) && now >= old(time) ==>
        samples == old(samples) + [Sample(master.value, now)] && actualFps == Rate(samples, old(actualFps))
    {
      hide Holds, Monotone, Retained, OldestWithin;
      if master.None? {
        Reset();
        return;
      }
      if !initialized {
        Start(master.value, now);
        return;
      }
      if master.value < frame || now < time {
        Start(master.value, now);
        return;
      }
      Append(master.value, now);
      var oldest := ScanBack();
      RetainedMonotone(samples);
      var elapsed := now - times[oldest];
      if elapsed < 0.5 {
        return;
      }
      var made: nat := master.value - frames[oldest];
      actualFps := made as real / elapsed;
    }
  }

  lemma SlotIs(head: nat, k: nat)
    requires head < LEN && k < LEN
    ensures Slot(head, k) == (head + LEN - k) % LEN
  {
  }

  lemma RetainedSize(ss: seq<Sample>)
    ensures |Retained(ss)| == if |ss| < LEN then |ss| else LEN
  {
  }
}
