/** The audio callback and the playback controls, as they change streams, rings and the accumulator in place. */
module AudioHost {
  import opened Common
  import opened AudioRing
  import opened AudioStreams

  // ----- The accumulator -----

  /** A sample at a volume, on top of what is there. */
  function Added(a: real, x: real, v: real): real {
    a + x * v
  }

  /** `a` with `pairs` added to its front, left and right interleaved, at a volume. */
  function Mixed(a: seq<real>, pairs: seq<Pair>, v: real): (r: seq<real>)
    ensures |r| == |a|
  {
    seq(|a|, j requires 0 <= j < |a| =>
      if j / 2 < |pairs| then Added(a[j], if j % 2 == 0 then pairs[j / 2].l else pairs[j / 2].r, v) else a[j])
  }

  function WithPair(m: seq<real>, k: nat, p: Pair, v: real): (r: seq<real>)
    requires 2 * k + 1 < |m|
    ensures |r| == |m|
  {
    m[2 * k := Added(m[2 * k], p.l, v)][2 * k + 1 := Added(m[2 * k + 1], p.r, v)]
  }

  lemma MixedMore(a: seq<real>, pairs: seq<Pair>, p: Pair, v: real)
    requires 2 * |pairs| + 1 < |a|
    ensures Mixed(a, pairs + [p], v) == WithPair(Mixed(a, pairs, v), |pairs|, p, v)
  {
    hide Added;
    var r, s := Mixed(a, pairs + [p], v), WithPair(Mixed(a, pairs, v), |pairs|, p, v);
    forall j | 0 <= j < |a|
      ensures r[j] == s[j]
    {
    }
  }

  lemma MixedNone(a: seq<real>, v: real)
    ensures Mixed(a, [], v) == a
  {
  }

  class Stream {
    const ring: Ring
    const sampleRate: nat
    const mixVolume: real
    const resample: bool
    var locked: bool
    var fadeOutSteps: int
    var fadeOutTotal: int
    var callbackVolume: real

    /** A new stream is locked. */
    constructor (ring: Ring, sampleRate: nat, mixVolume: real, resample: bool)
      requires ring.Valid() && ring.queue == []
      ensures Valid() && this.ring == ring && this.sampleRate == sampleRate && this.mixVolume == mixVolume &&
        this.resample == resample
      ensures locked && fadeOutSteps == 0 && fadeOutTotal == 1 && callbackVolume == 1.0
    {
      this.ring, this.sampleRate, this.mixVolume, this.resample := ring, sampleRate, mixVolume, resample;
      locked, fadeOutSteps, fadeOutTotal, callbackVolume := true, 0, 1, 1.0;
    }

    ghost predicate Valid()
      reads this, ring, ring.data
    {
      ring.Valid() && (fadeOutSteps > 0 ==> fadeOutTotal > 0)
    }

    function Cfg(deviceRate: nat, rs: Resampler): Config {
      Config(mixVolume, resample, sampleRate, deviceRate, ring.capacity, rs)
    }

    ghost function St(): State
      reads this, ring
    {
      State(locked, fadeOutSteps, fadeOutTotal, callbackVolume, ring.queue)
    }

    /** One chunk of a drain: `got` pairs added at place `done`. */
    static method AddChunk(accum: array<real>, ghost a: seq<real>, ghost before: seq<Pair>, done: nat,
      tmp: seq<Pair>, v: real)
      requires done == |before| && 2 * (done + |tmp|) <= accum.Length
      requires accum[..] == Mixed(a, before, v) && |a| == accum.Length
      modifies accum
      ensures accum[..] == Mixed(a, before + tmp, v)
    {
      hide Mixed, WithPair;
      assert before + tmp[..0] == before;
      for i := 0 to |tmp|
        invariant accum[..] == Mixed(a, before + tmp[..i], v)
      {
        ghost var pairs, m := before + tmp[..i], accum[..];
        MixedMore(a, pairs, tmp[i], v);
        assert pairs + [tmp[i]] == before + tmp[..i + 1];
        assert |pairs| == done + i && m == Mixed(a, pairs, v);
        AddPair(accum, done + i, tmp[i], v);
        assert accum[..] == WithPair(m, done + i, tmp[i], v);
      }
      assert tmp[..|tmp|] == tmp;
    }

    static method AddPair(accum: array<real>, k: nat, p: Pair, v: real)
      requires 2 * k + 1 < accum.Length
      modifies accum
      ensures accum[..] == WithPair(old(accum[..]), k, p, v)
    {
      hide Added;
      accum[k * 2] := Added(accum[k * 2], p.l, v);
      accum[k * 2 + 1] := Added(accum[k * 2 + 1], p.r, v);
    }

    /** drain_stream_to_accum: in chunks of 128, up to `frames` pairs in order. */
    method DrainInto(accum: array<real>, frames: nat)
      requires Valid() && 2 * frames <= accum.Length
      modifies ring`readPos, ring`queue, accum
      ensures Valid() && ring.queue == old(ring.queue)[Min(frames, |old(ring.queue)|)..]
      ensures accum[..] == Mixed(old(accum[..]), old(ring.queue)[..Min(frames, |old(ring.queue)|)], callbackVolume)
    {
      hide Mixed, Ring.Valid;
      ghost var q, a := ring.queue, accum[..];
      var done := 0;
      MixedNone(a, callbackVolume);
      while done < frames
        invariant done <= frames && done <= |q| && ring.Valid() && ring.queue == q[done..]
        invariant accum[..] == Mixed(a, q[..done], callbackVolume)
      {
        var want := frames - done;
        if want > 128 {
          want := 128;
        }
        var tmp := ring.Pop(want);
        AddChunk(accum, a, q[..done], done, tmp, callbackVolume);
        assert q[..done] + tmp == q[..done + |tmp|];
        done := done + |tmp|;
        if |tmp| < want {
          break;
        }
      }
      assert done == Min(frames, |q|);
    }

    /** The resampling branch: the resampler takes from the ring and its output is accumulated. */
    method ResampleInto(accum: array<real>, frames: nat, rs: Resampler)
      requires Valid() && 2 * frames <= accum.Length
      modifies ring`readPos, ring`queue, accum
      ensures Valid()
      ensures var r, q := rs(old(ring.queue), frames), old(ring.queue);
        && ring.queue == q[Min(r.taken, |q|)..]
        && accum[..] == Mixed(old(accum[..]), r.made[..Min(|r.made|, frames)], callbackVolume)
    {
      hide Mixed, Ring.Valid;
      var q := ring.Contents();
      var r := rs(q, frames);
      var _ := ring.Pop(r.taken);
      var made := r.made[..Min(|r.made|, frames)];
      MixedNone(accum[..], callbackVolume);
      assert [] + made == made;
      AddChunk(accum, accum[..], [], 0, made, callbackVolume);
    }

    /** One stream's turn in data_callback. */
    method Callback(accum: array<real>, frames: nat, deviceRate: nat, rs: Resampler)
      requires Valid() && 2 * frames <= accum.Length && deviceRate > 0
      modifies `locked, `fadeOutSteps, `callbackVolume, ring`readPos, ring`queue, accum
      ensures Valid()
      ensures var c := Called(Cfg(deviceRate, rs), old(St()), frames);
        St() == c.0 && accum[..] == Mixed(old(accum[..]), c.1.pairs, c.1.volume)
    {
      hide Mixed, Ring.Valid;
      MixedNone(accum[..], 0.0);
      if locked {
        return;
      }
      var volMult := 1.0;
      var fade := fadeOutSteps;
      if fade > 0 {
        volMult := fade as real / fadeOutTotal as real;
        var newFade := fade - 1;
        fadeOutSteps := newFade;
        if newFade == 0 {
          locked := true;
          ring.Drain();
          return;
        }
      }
      callbackVolume := mixVolume * volMult;
      ring.QueuedIs();
      if resample {
        var needed := frames * sampleRate / deviceRate + 1;
        if ring.Queued() < needed {
          return;
        }
        ResampleInto(accum, frames, rs);
      } else {
        if ring.Queued() < frames {
          return;
        }
        DrainInto(accum, frames);
      }
    }

    // ----- The emulator's side -----

    method Lock()
      requires Valid()
      modifies `locked, `fadeOutSteps, ring`readPos, ring`queue
      ensures Valid() && forall c: Config | c.deviceRate > 0 :: St() == Apply(c, old(St()), LockAll)
    {
      fadeOutSteps := 0;
      ring.Drain();
      locked := true;
    }

    method BeginFade(steps: nat)
      requires Valid() && 0 < steps < U32
      modifies `fadeOutSteps, `fadeOutTotal
      ensures Valid() && forall c: Config | c.deviceRate > 0 :: St() == Apply(c, old(St()), Fade(steps))
    {
      if locked {
        return;
      }
      fadeOutTotal := ToInt(steps);
      fadeOutSteps := ToInt(steps);
    }

    method PrimeAndUnlock(pad: nat)
      requires Valid() && pad + |ring.queue| < U32
      modifies `locked, `fadeOutSteps, `callbackVolume, ring`readPos, ring`queue, ring.data
      ensures Valid() <==> pad + |old(ring.queue)| <= ring.capacity
      ensures forall c: Config | c.deviceRate > 0 &&
        c.mix == mixVolume :: St() == Apply(c, old(St()), Prime(pad))
    {
      RampNone(FirstPair(ring.queue));
      ring.QueuedIs();
      if pad > 0 {
        var target := ring.First();
        ring.PrependRamp(target, pad);
      }
      fadeOutSteps := 0;
      callbackVolume := mixVolume;
      locked := false;
    }
  }

  /** (i16)(f * 32767) after clamping to [-1, 1]; the cast truncates toward zero. */
  function ToI16(f: real): (v: int)
    ensures -32767 <= v <= 32767
  {
    var g := if f > 1.0 then 1.0 else if f < -1.0 then -1.0 else f;
    if g >= 0.0 then (g * 32767.0).Floor else -(-g * 32767.0).Floor
  }

  function Converted(a: seq<real>, n: nat): seq<int>
    requires n <= |a|
  {
    seq(n, j requires 0 <= j < n => ToI16(a[j]))
  }

  /** All streams' sounds on top of each other. */
  function MixAll(a: seq<real>, ss: seq<Sound>): (r: seq<real>)
    ensures |r| == |a|
  {
    if |ss| == 0 then a else Mixed(MixAll(a, ss[..|ss| - 1]), ss[|ss| - 1].pairs, ss[|ss| - 1].volume)
  }

  const ACCUM_FRAMES := 4096

  /** What a callback gives the device, or that it has written behind the accumulator. */
  datatype Output = Overrun | Samples(values: seq<int>)

  class AudioWrap {
    var streams: seq<Stream>
    const deviceRate: nat
    const accum: array<real>         // g_accum

    ghost function Rings(): set<Ring>
      reads `streams
    {
      set s | s in streams :: s.ring
    }

    ghost function Buffers(): set<array<Pair>>
      reads `streams
    {
      set s | s in streams :: s.ring.data
    }

    ghost function Streams(): set<Stream>
      reads `streams
    {
      set s | s in streams
    }

    /** Streams, rings and buffers are not shared. */
    ghost predicate Valid()
      reads `streams, Streams(), Rings(), Buffers()
    {
      && accum.Length == 2 * ACCUM_FRAMES && deviceRate > 0
      && (forall i, j :: 0 <= i < j < |streams| ==>
            streams[i] != streams[j] && streams[i].ring != streams[j].ring &&
              streams[i].ring.data != streams[j].ring.data)
      && (forall i :: 0 <= i < |streams| ==> streams[i].Valid())
    }

    constructor (deviceRate: nat)
      requires deviceRate > 0
      ensures Valid() && streams == [] && this.deviceRate == deviceRate && fresh(accum)
    {
      this.deviceRate := deviceRate;
      streams := [];
      accum := new real[2 * ACCUM_FRAMES](_ => 0.0);
    }

    /** What stream i adds to a callback that finds it in state st. */
    function SoundOf(i: nat, st: State, frames: nat, rs: Resampler): Sound
      requires i < |streams| && deviceRate > 0
      reads `streams
    {
      Called(streams[i].Cfg(deviceRate, rs), st, frames).1
    }

    /** The state stream i is left in. */
    function NextOf(i: nat, st: State, e: Event, rs: Resampler): State
      requires i < |streams| && deviceRate > 0
      reads `streams
    {
      Apply(streams[i].Cfg(deviceRate, rs), st, e)
    }

    method Silence(n: nat)
      requires 2 * n <= accum.Length
      modifies accum
      ensures forall j :: 0 <= j < 2 * n ==> accum[j] == 0.0
      ensures accum[2 * n..] == old(accum[2 * n..])
    {
      for j := 0 to 2 * n
        invariant forall i :: 0 <= i < j ==> accum[i] == 0.0
        invariant accum[2 * n..] == old(accum[2 * n..])
      {
        accum[j] := 0.0;
      }
    }

    /** Stream i's turn; the others stand as they are. */
    method CallStream(i: nat, frames: nat, rs: Resampler) returns (ghost sound: Sound)
      requires Valid() && frames <= ACCUM_FRAMES && i < |streams|
      modifies streams[i], streams[i].ring, accum
      ensures Valid() && forall j :: 0 <= j < |streams| && j != i ==> streams[j].St() == old(streams[j].St())
      ensures streams[i].St() == NextOf(i, old(streams[i].St()), Callback(frames), rs)
      ensures sound == SoundOf(i, old(streams[i].St()), frames, rs)
      ensures accum[..] == Mixed(old(accum[..]), sound.pairs, sound.volume)
    {
      hide Called, Mixed, Ring.Valid;
      sound := SoundOf(i, streams[i].St(), frames, rs);
      streams[i].Callback(accum, frames, deviceRate, rs);
    }

    /** data_callback where the accumulator is long enough: every stream steps once; their sum, clamped. */
    method MixFrames(frames: nat, rs: Resampler) returns (values: seq<int>, ghost sounds: seq<Sound>,
        ghost zeros: seq<real>)
      requires Valid() && frames <= ACCUM_FRAMES
      modifies Streams(), Rings(), accum
      ensures Valid() && |sounds| == |streams|
      ensures forall i :: 0 <= i < |streams| ==>
        streams[i].St() == NextOf(i, old(streams[i].St()), Callback(frames), rs)
      ensures forall i :: 0 <= i < |streams| ==> sounds[i] == SoundOf(i, old(streams[i].St()), frames, rs)
      ensures |zeros| == accum.Length >= 2 * frames && forall j :: 0 <= j < 2 * frames ==> zeros[j] == 0.0
      ensures values == Converted(MixAll(zeros, sounds), 2 * frames)
    {
      assert accum.Length == 2 * ACCUM_FRAMES && deviceRate > 0;
      hide AudioWrap.NextOf, AudioWrap.SoundOf, Stream.St, Mixed, Ring.Valid, Stream.Valid, MixAll, Converted;
      Silence(frames);
      assert Valid();
      hide AudioWrap.Valid;
      zeros := accum[..];
      sounds := SumStreams(frames, rs, zeros);
      values := Convert(2 * frames);
    }

    /**
     data_callback: every stream steps once, and the output is their sum, clamped. Clearing the
     accumulator runs over its end exactly when there are more than 4096 frames.
     */
    method DataCallback(frames: nat, rs: Resampler) returns (out: Output, ghost sounds: seq<Sound>,
        ghost zeros: seq<real>)
      requires Valid() && 2 * frames < U32
      modifies Streams(), Rings(), accum
      ensures Valid() && (out.Overrun? <==> frames > ACCUM_FRAMES)
      ensures out.Samples? ==> |sounds| == |streams|
      ensures out.Samples? ==> forall i :: 0 <= i < |streams| ==>
        streams[i].St() == NextOf(i, old(streams[i].St()), Callback(frames), rs)
      ensures out.Samples? ==>
        forall i :: 0 <= i < |streams| ==> sounds[i] == SoundOf(i, old(streams[i].St()), frames, rs)
      ensures out.Samples? ==>
        |zeros| == accum.Length >= 2 * frames && forall j :: 0 <= j < 2 * frames ==> zeros[j] == 0.0
      ensures out.Samples? ==> out.values == Converted(MixAll(zeros, sounds), 2 * frames)
    {
      assert accum.Length == 2 * ACCUM_FRAMES && deviceRate > 0;
      hide AudioWrap.Valid, AudioWrap.NextOf, AudioWrap.SoundOf, Stream.St, Mixed, MixAll, Converted;
      if 2 * frames > accum.Length {
        return Overrun, [], [];
      }
      var values;
      values, sounds, zeros := MixFrames(frames, rs);
      out := Samples(values);
    }

    /** The loop over the streams. */
    method SumStreams(frames: nat, rs: Resampler, ghost zeros: seq<real>) returns (ghost sounds: seq<Sound>)
      requires Valid() && frames <= ACCUM_FRAMES && accum[..] == zeros
      modifies Streams(), Rings(), accum
      ensures Valid() && |sounds| == |streams|
      ensures forall i :: 0 <= i < |streams| ==>
        streams[i].St() == NextOf(i, old(streams[i].St()), Callback(frames), rs)
      ensures forall i :: 0 <= i < |streams| ==> sounds[i] == SoundOf(i, old(streams[i].St()), frames, rs)
      ensures accum[..] == MixAll(zeros, sounds)
    {
      assert deviceRate > 0;
      hide AudioWrap.Valid, AudioWrap.NextOf, AudioWrap.SoundOf, Stream.St, Mixed;
      sounds := [];
      for i := 0 to |streams|
        invariant Valid() && |sounds| == i && accum[..] == MixAll(zeros, sounds)
        invariant forall j :: i <= j < |streams| ==> streams[j].St() == old(streams[j].St())
        invariant forall j :: 0 <= j < i ==> streams[j].St() == NextOf(j, old(streams[j].St()), Callback(frames), rs)
        invariant forall j :: 0 <= j < i ==> sounds[j] == SoundOf(j, old(streams[j].St()), frames, rs)
      {
        ghost var sound := CallStream(i, frames, rs);
        assert (sounds + [sound])[..i] == sounds;
        sounds := sounds + [sound];
      }
    }

    method Convert(n: nat) returns (out: seq<int>)
      requires n <= accum.Length
      ensures out == Converted(accum[..], n)
    {
      hide ToI16;
      out := [];
      for j := 0 to n
        invariant out == Converted(accum[..], j)
      {
        out := out + [ToI16(accum[j])];
      }
    }

    // ----- Playback control -----

    /** One stream's turn in one of the control loops; the others stand as they are. */
    method ControlStream(i: nat, e: Event)
      requires Valid() && i < |streams| && !e.Callback? && !e.Push?
      requires e.Fade? ==> 0 < e.k < U32
      requires e.Prime? ==> e.pad + |streams[i].ring.queue| <= streams[i].ring.capacity
      modifies streams[i], streams[i].ring, streams[i].ring.data
      ensures Valid() && streams[i].St() == NextOf(i, old(streams[i].St()), e, NO_RESAMPLER)
      ensures forall j :: 0 <= j < |streams| && j != i ==> streams[j].St() == old(streams[j].St())
    {
      hide Ring.Valid, Ramp;
      var s := streams[i];
      s.ring.QueuedIs();
      match e {
        case LockAll => s.Lock();
        case Fade(k) => s.BeginFade(k);
        case Prime(pad) => s.PrimeAndUnlock(pad);
        case Discard => s.ring.Drain();
        case KeepLatest(keep) => s.ring.KeepLatest(keep);
      }
    }

    /** lock_all */
    method LockAll()
      requires Valid()
      modifies Streams(), Rings(), Buffers()
      ensures Valid()
      ensures forall i :: 0 <= i < |streams| ==>
        streams[i].St() == NextOf(i, old(streams[i].St()), Event.LockAll, NO_RESAMPLER)
    {
      assert deviceRate > 0;
      hide AudioWrap.Valid, AudioWrap.NextOf, Stream.St;
      for i := 0 to |streams|
        invariant Valid()
        invariant forall j :: i <= j < |streams| ==> streams[j].St() == old(streams[j].St())
        invariant forall j :: 0 <= j < i ==>
          streams[j].St() == NextOf(j, old(streams[j].St()), Event.LockAll, NO_RESAMPLER)
      {
        ControlStream(i, Event.LockAll);
      }
    }

    /** begin_fadeout */
    method BeginFadeout(steps: nat)
      requires Valid() && steps < U32
      modifies Streams(), Rings(), Buffers()
      ensures Valid()
      ensures forall i :: 0 <= i < |streams| ==>
        streams[i].St() == NextOf(i, old(streams[i].St()), Fade(steps), NO_RESAMPLER)
    {
      assert deviceRate > 0;
      hide AudioWrap.Valid, AudioWrap.NextOf, Stream.St;
      if steps == 0 {
        FadeOfNone();
        LockAll();
        return;
      }
      FadeAll(steps);
    }

    lemma FadeOfNone()
      requires deviceRate > 0
      ensures forall i, st | 0 <= i < |streams| ::
        NextOf(i, st, Fade(0), NO_RESAMPLER) == NextOf(i, st, Event.LockAll, NO_RESAMPLER)
    {
    }

    /** The loop of begin_fadeout. */
    method FadeAll(steps: nat)
      requires Valid() && 0 < steps < U32
      modifies Streams(), Rings(), Buffers()
      ensures Valid()
      ensures forall i :: 0 <= i < |streams| ==>
        streams[i].St() == NextOf(i, old(streams[i].St()), Fade(steps), NO_RESAMPLER)
    {
      assert deviceRate > 0;
      hide AudioWrap.Valid, AudioWrap.NextOf, Stream.St;
      for i := 0 to |streams|
        invariant Valid()
        invariant forall j :: i <= j < |streams| ==> streams[j].St() == old(streams[j].St())
        invariant forall j :: 0 <= j < i ==>
          streams[j].St() == NextOf(j, old(streams[j].St()), Fade(steps), NO_RESAMPLER)
      {
        ControlStream(i, Fade(steps));
      }
    }

    /** Pairs of padding for stream i: the given part of a frame, rounded. */
    function PadOf(i: nat, padFrac: real, fps: real): nat
      requires i < |streams|
      reads `streams
    {
      if padFrac > 0.0 && fps > 0.0 then
        var x := padFrac * streams[i].sampleRate as real / fps + 0.5;
        if x >= 0.0 then x.Floor else 0
      else 0
    }

    /** prime_and_unlock; each ring must have room for its ramp. */
    method PrimeAndUnlock(padFrac: real, fps: real)
      requires Valid()
      requires forall i :: 0 <= i < |streams| ==>
        PadOf(i, padFrac, fps) + |streams[i].St().queue| <= streams[i].ring.capacity
      modifies Streams(), Rings(), Buffers()
      ensures Valid()
      ensures forall i :: 0 <= i < |streams| ==>
        streams[i].St() == NextOf(i, old(streams[i].St()), Prime(PadOf(i, padFrac, fps)), NO_RESAMPLER)
    {
      assert deviceRate > 0;
      hide AudioWrap.Valid, AudioWrap.NextOf, AudioWrap.PadOf;
      for i := 0 to |streams|
        invariant Valid()
        invariant forall j :: i <= j < |streams| ==> streams[j].St() == old(streams[j].St())
        invariant forall j :: 0 <= j < i ==>
          streams[j].St() == NextOf(j, old(streams[j].St()), Prime(PadOf(j, padFrac, fps)), NO_RESAMPLER)
      {
        assert old(streams[i].St()).queue == streams[i].ring.queue;
        ControlStream(i, Prime(PadOf(i, padFrac, fps)));
      }
    }

    /** discard_emulated_buffers */
    method DiscardEmulatedBuffers()
      requires Valid()
      modifies Streams(), Rings(), Buffers()
      ensures Valid()
      ensures forall i :: 0 <= i < |streams| ==>
        streams[i].St() == NextOf(i, old(streams[i].St()), Discard, NO_RESAMPLER)
    {
      assert deviceRate > 0;
      hide AudioWrap.Valid, AudioWrap.NextOf, Stream.St;
      for i := 0 to |streams|
        invariant Valid()
        invariant forall j :: i <= j < |streams| ==> streams[j].St() == old(streams[j].St())
        invariant forall j :: 0 <= j < i ==> streams[j].St() == NextOf(j, old(streams[j].St()), Discard, NO_RESAMPLER)
      {
        ControlStream(i, Discard);
      }
    }

    /** The pairs of one frame of stream i, rounded. */
    function FrameOf(i: nat, fps: real): nat
      requires i < |streams|
      reads `streams
    {
      if fps > 0.0 then (streams[i].sampleRate as real / fps + 0.5).Floor else 0
    }

    /** discard_all_but_latest_buffers */
    method DiscardAllButLatest(fps: real)
      requires Valid()
      modifies Streams(), Rings(), Buffers()
      ensures Valid()
      ensures forall i :: 0 <= i < |streams| ==>
        streams[i].St() == NextOf(i, old(streams[i].St()), KeepLatest(FrameOf(i, fps)), NO_RESAMPLER)
    {
      assert deviceRate > 0;
      hide AudioWrap.Valid, AudioWrap.NextOf, Stream.St, AudioWrap.FrameOf;
      for i := 0 to |streams|
        invariant Valid()
        invariant forall j :: i <= j < |streams| ==> streams[j].St() == old(streams[j].St())
        invariant forall j :: 0 <= j < i ==>
          streams[j].St() == NextOf(j, old(streams[j].St()), KeepLatest(FrameOf(j, fps)), NO_RESAMPLER)
      {
        ControlStream(i, KeepLatest(FrameOf(i, fps)));
      }
    }
  }

  /** Only callbacks ask the resampler. */
  const NO_RESAMPLER: Resampler := (q, n) => Resampled(0, [])
}
