/** Locking, fading and priming of audio streams, between an emulator thread and an audio callback. */
module AudioStreams {
  import opened Common
  import opened AudioRing

  // ----- One stream as a state machine -----

  /** What does not change: mix volume, sample rates, ring size, and what the resampler does with a queue. */
  datatype Config = Config(mix: real, resample: bool, rate: nat, deviceRate: nat, capacity: nat, resampler: Resampler)

  /** Pairs taken from the front of the queue, and pairs made of them, for a number of frames. */
  datatype Resampled = Resampled(taken: nat, made: seq<Pair>)

  type Resampler = (seq<Pair>, nat) -> Resampled

  datatype State = State(locked: bool, steps: int, total: int, volume: real, queue: seq<Pair>)

  datatype Event =
    | Callback(frames: nat)
    | Push(p: Pair)
    | LockAll
    | Fade(k: nat)
    | Prime(pad: nat)
    | Discard
    | KeepLatest(keep: nat)

  /** (int) of a u32. */
  function ToInt(k: nat): int {
    if k < 0x8000_0000 then k else k - U32
  }

  /** Volume factor and steps after a callback's look at the fade; None when it ends the fade. */
  function FadeStep(st: State): Option<(real, int)> {
    if st.steps > 0 && st.total != 0 then
      if st.steps == 1 then None else Some((st.steps as real / st.total as real, st.steps - 1))
    else Some((1.0, st.steps))
  }

  /** What a callback adds to the output: pairs and the volume they are played at. */
  datatype Sound = Sound(pairs: seq<Pair>, volume: real)

  const SILENCE := Sound([], 0.0)

  function Needed(c: Config, frames: nat): nat
    requires c.deviceRate > 0
  {
    frames * c.rate / c.deviceRate + 1
  }

  function Play(c: Config, st: State, frames: nat): (State, Sound)
    requires c.deviceRate > 0
  {
    if c.resample then
      if |st.queue| < Needed(c, frames) then (st, SILENCE)
      else
        var r := c.resampler(st.queue, frames);
        (st.(queue := st.queue[Min(r.taken, |st.queue|)..]), Sound(r.made[..Min(|r.made|, frames)], st.volume))
    else if |st.queue| < frames then (st, SILENCE)
    else (st.(queue := st.queue[frames..]), Sound(st.queue[..frames], st.volume))
  }

  function Called(c: Config, st: State, frames: nat): (State, Sound)
    requires c.deviceRate > 0
  {
    if st.locked then (st, SILENCE)
    else
      var f := FadeStep(st);
      if f.None? then (st.(locked := true, steps := 0, queue := []), SILENCE)
      else Play(c, st.(steps := f.value.1, volume := c.mix * f.value.0), frames)
  }

  function FirstPair(q: seq<Pair>): Pair {
    if |q| > 0 then q[0] else Pair(0.0, 0.0)
  }

  function Apply(c: Config, st: State, e: Event): State
    requires c.deviceRate > 0
  {
    match e
    case Callback(n) => Called(c, st, n).0
    case Push(p) => if |st.queue| < c.capacity then st.(queue := st.queue + [p]) else st
    case LockAll => st.(steps := 0, queue := [], locked := true)
    case Fade(k) =>
      if k == 0 then st.(steps := 0, queue := [], locked := true)
      else if st.locked then st
      else st.(total := ToInt(k), steps := ToInt(k))
    case Prime(pad) => st.(queue := Ramp(FirstPair(st.queue), pad) + st.queue, steps := 0, volume := c.mix,
      locked := false)
    case Discard => st.(queue := [])
    case KeepLatest(keep) => if |st.queue| > keep then st.(queue := st.queue[|st.queue| - keep..]) else st
  }

  // ----- Whole runs: any interleaving of callbacks with the emulator's calls -----

  function Run(c: Config, st: State, es: seq<Event>): State
    requires c.deviceRate > 0
    decreases |es|
  {
    if |es| == 0 then st else Run(c, Apply(c, st, es[0]), es[1..])
  }

  /** What each callback of a run adds to the output. */
  function Played(c: Config, st: State, es: seq<Event>): seq<Sound>
    requires c.deviceRate > 0
    decreases |es|
  {
    if |es| == 0 then []
    else (if es[0].Callback? then [Called(c, st, es[0].frames).1] else []) + Played(c, Apply(c, st, es[0]), es[1..])
  }

  /** A callback and the queue it finds. */
  datatype Found = Found(queue: seq<Pair>, frames: nat)

  function Calls(c: Config, st: State, es: seq<Event>): seq<Found>
    requires c.deviceRate > 0
    decreases |es|
  {
    if |es| == 0 then []
    else (if es[0].Callback? then [Found(st.queue, es[0].frames)] else []) + Calls(c, Apply(c, st, es[0]), es[1..])
  }

  function Callbacks(es: seq<Event>): nat {
    if |es| == 0 then 0 else (if es[0].Callback? then 1 else 0) + Callbacks(es[1..])
  }

  lemma {:induction false} PlayedCount(c: Config, st: State, es: seq<Event>)
    requires c.deviceRate > 0
    ensures |Played(c, st, es)| == |Calls(c, st, es)| == Callbacks(es)
    decreases |es|
  {
    hide Apply, Called;
    if |es| > 0 {
      PlayedCount(c, Apply(c, st, es[0]), es[1..]);
    }
  }

  /** A locked stream is not consumed and adds nothing, until the next prime, whatever else is called. */
  lemma {:induction false} LockedIsSilent(c: Config, st: State, es: seq<Event>)
    requires c.deviceRate > 0 && st.locked && forall e <- es :: !e.Prime?
    ensures Run(c, st, es).locked && forall s <- Played(c, st, es) :: s == SILENCE
    decreases |es|
  {
    if |es| > 0 {
      assert es[0] in es && forall e <- es[1..] :: e in es;
      LockedIsSilent(c, Apply(c, st, es[0]), es[1..]);
    }
  }

  /** A callback leaves the queue of a locked stream alone. */
  lemma LockedIsKept(c: Config, st: State, frames: nat)
    requires c.deviceRate > 0 && st.locked
    ensures Apply(c, st, Callback(frames)) == st
  {
  }

  /** Neither lock, fade nor prime. */
  predicate Undisturbed(es: seq<Event>) {
    forall e <- es :: e.Callback? || e.Push? || e.Discard? || e.KeepLatest?
  }

  /** A fade of k that is under way: `left` callbacks to go. */
  predicate Fading(st: State, k: nat, left: nat) {
    0 < left <= k && !st.locked && st.steps == left && st.total == k
  }

  /** The volume of callback i of a fade of k, counted from 0. */
  function FadeVolume(c: Config, k: nat, i: nat): real
    requires i < k
  {
    c.mix * ((k - i) as real / k as real)
  }

  /** The queue does not hold what a callback needs. */
  predicate Short(c: Config, f: Found)
    requires c.deviceRate > 0
  {
    |f.queue| < if c.resample then Needed(c, f.frames) else f.frames
  }

  /** What a callback makes of a queue that is not short. */
  function Made(c: Config, f: Found): seq<Pair> {
    if c.resample then
      var made := c.resampler(f.queue, f.frames).made;
      made[..Min(|made|, f.frames)]
    else f.queue[..Min(|f.queue|, f.frames)]
  }

  function Heard(c: Config, f: Found, volume: real): Sound
    requires c.deviceRate > 0
  {
    if Short(c, f) then SILENCE else Sound(Made(c, f), volume)
  }

  lemma FadingStep(c: Config, st: State, k: nat, left: nat, e: Event)
    requires c.deviceRate > 0 && Fading(st, k, left) && Undisturbed([e])
    ensures !e.Callback? ==> Fading(Apply(c, st, e), k, left)
    ensures e.Callback? && left > 1 ==> Fading(Apply(c, st, e), k, left - 1)
    ensures e.Callback? && left > 1 ==>
      Called(c, st, e.frames).1 == Heard(c, Found(st.queue, e.frames), FadeVolume(c, k, k - left))
    ensures e.Callback? && left == 1 ==>
      Apply(c, st, e) == st.(locked := true, steps := 0, queue := []) && Called(c, st, e.frames).1 == SILENCE
  {
    assert e in [e];
  }

  /** What the i-th of the callbacks left plays: silence where the queue is short, and from the last on. */
  function FadeSound(c: Config, k: nat, left: nat, i: nat, f: Found): Sound
    requires c.deviceRate > 0 && 0 < left <= k
  {
    if i + 1 < left then Heard(c, f, FadeVolume(c, k, k - left + i)) else SILENCE
  }

  predicate FadeSounds(c: Config, k: nat, left: nat, fs: seq<Found>, ss: seq<Sound>)
    requires c.deviceRate > 0 && 0 < left <= k
  {
    |ss| == |fs| && forall i :: 0 <= i < |ss| ==> ss[i] == FadeSound(c, k, left, i, fs[i])
  }

  lemma FadeSoundsMore(c: Config, k: nat, left: nat, f: Found, fs: seq<Found>, s: Sound, ss: seq<Sound>)
    requires c.deviceRate > 0 && 1 < left <= k && FadeSounds(c, k, left - 1, fs, ss)
    requires s == Heard(c, f, FadeVolume(c, k, k - left))
    ensures FadeSounds(c, k, left, [f] + fs, [s] + ss)
  {
    hide FadeVolume, Heard;
    var all := [s] + ss;
    forall i | 0 <= i < |all|
      ensures all[i] == FadeSound(c, k, left, i, ([f] + fs)[i])
    {
      if i > 0 {
        assert all[i] == ss[i - 1] && ([f] + fs)[i] == fs[i - 1];
      }
    }
  }

  lemma SilentSounds(c: Config, k: nat, fs: seq<Found>, ss: seq<Sound>)
    requires c.deviceRate > 0 && 0 < k && |fs| == |ss| && forall s <- ss :: s == SILENCE
    ensures FadeSounds(c, k, 1, fs, ss)
  {
    forall i | 0 <= i < |ss|
      ensures ss[i] == SILENCE
    {
      assert ss[i] in ss;
    }
  }

  /**
   A fade that is not disturbed: callback i of k plays what it finds at (k - i)/k of the mix volume, down
   to 2/k, and nothing exactly where the queue is short; the k-th plays nothing, and from it on the
   stream is locked.
   */
  lemma {:induction false} FadeRuns(c: Config, st: State, k: nat, left: nat, es: seq<Event>)
    requires c.deviceRate > 0 && Fading(st, k, left) && Undisturbed(es)
    ensures var n := Callbacks(es); var t := Run(c, st, es);
      if n < left then Fading(t, k, left - n) else t.locked && t.steps == 0
    ensures |Calls(c, st, es)| == Callbacks(es) && FadeSounds(c, k, left, Calls(c, st, es), Played(c, st, es))
    decreases |es|
  {
    FadingBounds(st, k, left);
    PlayedCount(c, st, es);
    if |es| > 0 {
      var e, st' := es[0], Apply(c, st, es[0]);
      assert e in es && forall x <- es[1..] :: x in es;
      FadingStep(c, st, k, left, e);
      hide Apply, Called, FadeVolume, Fading, FadeSounds, Heard;
      if !e.Callback? {
        FadeRuns(c, st', k, left, es[1..]);
        assert Played(c, st, es) == Played(c, st', es[1..]) && Calls(c, st, es) == Calls(c, st', es[1..]);
      } else if left > 1 {
        FadeRuns(c, st', k, left - 1, es[1..]);
        FadeSoundsMore(c, k, left, Found(st.queue, e.frames), Calls(c, st', es[1..]),
          Called(c, st, e.frames).1, Played(c, st', es[1..]));
      } else {
        LockedRuns(c, st', es[1..]);
        SilentSounds(c, k, Calls(c, st, es), Played(c, st, es));
      }
    }
  }

  lemma FadingBounds(st: State, k: nat, left: nat)
    requires Fading(st, k, left)
    ensures 0 < left <= k
  {
  }

  lemma {:induction false} LockedRuns(c: Config, st: State, es: seq<Event>)
    requires c.deviceRate > 0 && st.locked && st.steps == 0 && Undisturbed(es)
    ensures var t := Run(c, st, es); t.locked && t.steps == 0
    ensures forall s <- Played(c, st, es) :: s == SILENCE
    decreases |es|
  {
    if |es| > 0 {
      assert es[0] in es && forall x <- es[1..] :: x in es;
      LockedRuns(c, Apply(c, st, es[0]), es[1..]);
    }
  }

  /** The callback that ends a fade drains the ring. */
  lemma FadeEnds(c: Config, st: State, k: nat, es: seq<Event>, frames: nat)
    requires c.deviceRate > 0 && Fading(st, k, k) && Undisturbed(es) && Callbacks(es) == k - 1
    ensures Apply(c, Run(c, st, es), Callback(frames)).locked && Apply(c, Run(c, st, es), Callback(frames)).queue == []
  {
    FadeRuns(c, st, k, k, es);
  }

  /** begin_fadeout starts a fade exactly on a playing stream and with a count a positive int can hold. */
  lemma FadeBegins(c: Config, st: State, k: nat)
    requires c.deviceRate > 0 && 0 < k < U32
    ensures Fading(Apply(c, st, Fade(k)), k, k) <==> !st.locked && k < 0x8000_0000
  {
  }

  /** The pairs that callbacks took, in order. */
  function Taken(ss: seq<Sound>): seq<Pair> {
    if |ss| == 0 then [] else ss[0].pairs + Taken(ss[1..])
  }

  /** The pairs that were pushed. */
  function PushedPairs(es: seq<Event>): seq<Pair> {
    if |es| == 0 then [] else (if es[0].Push? then [es[0].p] else []) + PushedPairs(es[1..])
  }

  /** No push finds the ring full. */
  predicate Roomy(c: Config, st: State, es: seq<Event>)
    requires c.deviceRate > 0
    decreases |es|
  {
    |es| == 0 || ((es[0].Push? ==> |st.queue| < c.capacity) && Roomy(c, Apply(c, st, es[0]), es[1..]))
  }

  /** The pairs an event takes off the front of the queue, played or not. */
  function Removed(c: Config, st: State, e: Event): (r: seq<Pair>)
    requires c.deviceRate > 0
    ensures r <= st.queue
  {
    match e
    case Callback(n) =>
      if st.locked then []
      else if FadeStep(st).None? then st.queue
      else if Short(c, Found(st.queue, n)) then []
      else st.queue[..if c.resample then Min(c.resampler(st.queue, n).taken, |st.queue|) else n]
    case LockAll => st.queue
    case Discard => st.queue
    case Fade(k) => if k == 0 then st.queue else []
    case KeepLatest(keep) => if |st.queue| > keep then st.queue[..|st.queue| - keep] else []
    case _ => []
  }

  /** All that left the queue in a run, in order. */
  function Gone(c: Config, st: State, es: seq<Event>): seq<Pair>
    requires c.deviceRate > 0
    decreases |es|
  {
    if |es| == 0 then [] else Removed(c, st, es[0]) + Gone(c, Apply(c, st, es[0]), es[1..])
  }

  lemma StepMoves(c: Config, st: State, e: Event)
    requires c.deviceRate > 0 && !e.Prime? && (e.Push? ==> |st.queue| < c.capacity)
    ensures st.queue + (if e.Push? then [e.p] else []) == Removed(c, st, e) + Apply(c, st, e).queue
  {
  }

  /**
   Whatever callbacks, locks, fades and discards come between the pushes, nothing is lost from the middle,
   doubled or reordered: what was buffered and then pushed is what left the front, and then what is buffered.
   */
  lemma {:induction false} FrontToBack(c: Config, st: State, es: seq<Event>)
    requires c.deviceRate > 0 && Roomy(c, st, es) && forall e <- es :: !e.Prime?
    ensures st.queue + PushedPairs(es) == Gone(c, st, es) + Run(c, st, es).queue
    decreases |es|
  {
    if |es| > 0 {
      var e, rest := es[0], es[1..];
      var st' := Apply(c, st, e);
      assert e in es && forall x <- rest :: x in es;
      assert Roomy(c, st', rest) && (e.Push? ==> |st.queue| < c.capacity);
      hide Apply, Removed, Roomy, Run, Gone, PushedPairs;
      FrontToBack(c, st', rest);
      StepMoves(c, st, e);
      RunUnfolds(c, st, es);
      Regroup(st.queue, if e.Push? then [e.p] else [], PushedPairs(rest), Removed(c, st, e), st'.queue,
        Gone(c, st', rest), Run(c, st', rest).queue);
    }
  }

  lemma RunUnfolds(c: Config, st: State, es: seq<Event>)
    requires c.deviceRate > 0 && |es| > 0
    ensures var e, rest, st' := es[0], es[1..], Apply(c, st, es[0]);
      && Run(c, st, es) == Run(c, st', rest)
      && Gone(c, st, es) == Removed(c, st, e) + Gone(c, st', rest)
      && PushedPairs(es) == (if e.Push? then [e.p] else []) + PushedPairs(rest)
  {
    hide Apply, Removed;
  }

  lemma Regroup(q: seq<Pair>, p: seq<Pair>, ps: seq<Pair>, r: seq<Pair>, q': seq<Pair>, g: seq<Pair>, end: seq<Pair>)
    requires q + p == r + q' && q' + ps == g + end
    ensures q + (p + ps) == r + g + end
  {
    assert q + (p + ps) == q + p + ps == r + (q' + ps);
    assert r + (g + end) == r + g + end;
  }

  /** Only callbacks and pushes. */
  predicate Plays(es: seq<Event>) {
    forall e <- es :: e.Callback? || e.Push?
  }

  lemma PlaysTail(es: seq<Event>)
    requires Plays(es) && |es| > 0
    ensures Plays(es[1..]) && (es[0].Callback? || es[0].Push?)
  {
    assert es[0] in es && forall x <- es[1..] :: x in es;
  }

  /** No fade ends within n callbacks. */
  predicate Lasts(st: State, n: nat) {
    st.locked || st.steps <= 0 || n < st.steps
  }

  lemma StepPlays(c: Config, st: State, e: Event, n: nat)
    requires c.deviceRate > 0 && !c.resample && (e.Callback? || e.Push?)
    requires Lasts(st, if e.Callback? then n + 1 else n)
    ensures Lasts(Apply(c, st, e), n)
    ensures Removed(c, st, e) == if e.Callback? then Called(c, st, e.frames).1.pairs else []
  {
  }

  /** As long as no fade ends, all that leaves a passthrough stream is played. */
  lemma {:induction false} AllPlayed(c: Config, st: State, es: seq<Event>)
    requires c.deviceRate > 0 && !c.resample && Plays(es) && Lasts(st, Callbacks(es))
    ensures Gone(c, st, es) == Taken(Played(c, st, es))
    decreases |es|
  {
    if |es| > 0 {
      var e, rest := es[0], es[1..];
      PlaysTail(es);
      var st' := Apply(c, st, e);
      hide Apply, Called, Removed, Lasts;
      StepPlays(c, st, e, Callbacks(rest));
      AllPlayed(c, st', rest);
      assert Gone(c, st, es) == Removed(c, st, e) + Gone(c, st', rest);
      if e.Callback? {
        TakenMore(Called(c, st, e.frames).1, Played(c, st', rest));
      } else {
        assert Played(c, st, es) == Played(c, st', rest);
      }
    }
  }

  lemma TakenMore(s: Sound, ss: seq<Sound>)
    ensures Taken([s] + ss) == s.pairs + Taken(ss)
  {
    assert ([s] + ss)[1..] == ss;
  }

  /**
   A passthrough stream is a FIFO, also through a fade until its last callback: what was buffered and then
   pushed is what callbacks took, in order, and then what is still buffered.
   */
  lemma FirstInFirstOut(c: Config, st: State, es: seq<Event>)
    requires c.deviceRate > 0 && !c.resample && Plays(es) && Lasts(st, Callbacks(es)) && Roomy(c, st, es)
    ensures st.queue + PushedPairs(es) == Taken(Played(c, st, es)) + Run(c, st, es).queue
  {
    AllPlayed(c, st, es);
    FrontToBack(c, st, es);
  }

  /** The last callback of a fade drops what no callback has played, and nothing else. */
  lemma FadeDrops(c: Config, st: State, k: nat, es: seq<Event>, frames: nat)
    requires c.deviceRate > 0 && !c.resample && Fading(st, k, k) && Plays(es) && Callbacks(es) == k - 1
    requires Roomy(c, st, es)
    ensures st.queue + PushedPairs(es) == Taken(Played(c, st, es)) + Removed(c, Run(c, st, es), Callback(frames))
  {
    FirstInFirstOut(c, st, es);
    FadeRuns(c, st, k, k, es);
  }

  /** Each callback takes exactly as many pairs as it has frames, or none. */
  lemma AllOrNothing(c: Config, st: State, frames: nat)
    requires c.deviceRate > 0 && !c.resample
    ensures var s := Called(c, st, frames).1; |s.pairs| == frames || s == SILENCE
    ensures Called(c, st, frames).1 != SILENCE ==>
      Called(c, st, frames).1.pairs == st.queue[..frames] && |st.queue| >= frames
  {
  }
}
