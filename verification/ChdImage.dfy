/** Disc images out of compressed hunks: two loops over the tracks that must agree, and the sector copy. */
module ChdImage {
  import opened Common

  const U32 := 0x1_0000_0000
  const SECTOR := 2352
  const TRACK_PAD := 4

  /** A track's metadata; `frames` and `pregap` are C ints. */
  datatype Track = Track(number: int, kind: string, frames: int, pregap: int, isV2: bool)

  datatype Desc = Desc(trackNo: int, mode: int, idx0: nat, idx1: nat)

  // ----- Sectors a track takes -----

  /** frames as u32, rounded up to a multiple of 4, all in 32 bits. */
  function Stored(t: Track): (s: nat)
    ensures s < U32 && s % 4 == 0
  {
    (t.frames % U32 + TRACK_PAD - 1) % U32 / TRACK_PAD * TRACK_PAD
  }

  lemma StoredHoldsFrames(t: Track)
    requires 0 <= t.frames <= U32 - 4
    ensures t.frames <= Stored(t) < t.frames + 4
  {
  }

  /** The exact number of sectors of all tracks. */
  function Sectors(ts: seq<Track>): nat {
    if |ts| == 0 then 0 else Sectors(ts[..|ts| - 1]) + Stored(ts[|ts| - 1])
  }

  method TotalSectors(tracks: seq<Track>) returns (total: nat)
    ensures total == Sectors(tracks) % U32
  {
    total := 0;
    for i := 0 to |tracks|
      invariant total == Sectors(tracks[..i]) % U32
    {
      assert tracks[..i + 1][..i] == tracks[..i];
      var stored := tracks[i].frames % U32;
      stored := (stored + TRACK_PAD - 1) % U32 / TRACK_PAD * TRACK_PAD;
      ModSum(Sectors(tracks[..i]), stored);
      total := (total + stored) % U32;
    }
    assert tracks[..|tracks|] == tracks;
  }

  lemma ModSum(a: nat, b: nat)
    ensures (a % U32 + b) % U32 == (a + b) % U32
  {
  }

  // ----- The table of contents -----

  function ModeOf(kind: string): int {
    if kind == "AUDIO" then 0 else if "MODE2" <= kind then 2 else 1
  }

  /** The entry of a track that starts at sector `at`. */
  function DescAt(t: Track, at: nat): Desc {
    Desc(t.number, ModeOf(t.kind), at, if t.isV2 && t.pregap > 0 then (at + t.pregap) % U32 else at)
  }

  function Toc(ts: seq<Track>): (ds: seq<Desc>)
    ensures |ds| == |ts|
  {
    if |ts| == 0 then [] else Toc(ts[..|ts| - 1]) + [DescAt(ts[|ts| - 1], Sectors(ts[..|ts| - 1]) % U32)]
  }

  method BuildToc(tracks: seq<Track>) returns (toc: seq<Desc>, end: nat)
    ensures toc == Toc(tracks) && end == Sectors(tracks) % U32
  {
    hide ModeOf;
    toc, end := [], 0;
    for i := 0 to |tracks|
      invariant toc == Toc(tracks[..i]) && end == Sectors(tracks[..i]) % U32
    {
      PrefixGrows(tracks, i);
      var d := Entry(tracks[i], end);
      toc := toc + [d];
      var stored := tracks[i].frames % U32;
      stored := (stored + TRACK_PAD - 1) % U32 / TRACK_PAD * TRACK_PAD;
      assert stored == Stored(tracks[i]);
      hide Stored, Sectors, Toc, DescAt;
      ModSum(Sectors(tracks[..i]), stored);
      end := (end + stored) % U32;
    }
    assert tracks[..|tracks|] == tracks;
  }

  method Entry(t: Track, at: nat) returns (d: Desc)
    ensures d == DescAt(t, at)
  {
    if t.isV2 && t.pregap > 0 {
      d := Desc(t.number, ModeOf(t.kind), at, (at + t.pregap) % U32);
    } else {
      d := Desc(t.number, ModeOf(t.kind), at, at);
    }
  }

  /** One more track. */
  lemma {:induction false} PrefixGrows(ts: seq<Track>, i: nat)
    requires i < |ts|
    ensures Sectors(ts[..i + 1]) == Sectors(ts[..i]) + Stored(ts[i])
    ensures Toc(ts[..i + 1]) == Toc(ts[..i]) + [DescAt(ts[i], Sectors(ts[..i]) % U32)]
  {
    hide Stored, DescAt;
    assert ts[..i + 1][..i] == ts[..i];
  }

  lemma {:induction false} SectorsAligned(ts: seq<Track>)
    ensures Sectors(ts) % 4 == 0
  {
    hide Stored;
    if |ts| > 0 {
      SectorsAligned(ts[..|ts| - 1]);
    }
  }

  lemma {:induction false} SectorsGrow(ts: seq<Track>, i: nat, j: nat)
    ensures i <= j <= |ts| ==> Sectors(ts[..i]) <= Sectors(ts[..j])
    decreases j
  {
    hide Stored, Toc;
    if i < j <= |ts| {
      SectorsGrow(ts, i, j - 1);
      PrefixGrows(ts, j - 1);
    }
  }

  lemma {:induction false} TocAt(ts: seq<Track>, i: nat)
    requires i < |ts|
    ensures Toc(ts)[i] == DescAt(ts[i], Sectors(ts[..i]) % U32)
    decreases |ts|
  {
    var n := |ts| - 1;
    if i < n {
      TocAt(ts[..n], i);
      assert ts[..n][..i] == ts[..i];
    }
  }

  /** Every start offset is a multiple of 4, even when the sum wraps. */
  lemma {:induction false} OffsetsAligned(ts: seq<Track>, i: nat)
    requires i < |ts|
    ensures Toc(ts)[i].idx0 % 4 == 0
  {
    TocAt(ts, i);
    SectorsAligned(ts[..i]);
    MultipleOf4(Sectors(ts[..i]));
  }

  lemma MultipleOf4(n: nat)
    requires n % 4 == 0
    ensures n % U32 % 4 == 0
  {
  }

  /** Where the table says track i ends: at the next start, or at the end of the image. */
  function NextStart(ts: seq<Track>, i: nat): nat
    requires i < |ts|
  {
    if i + 1 < |ts| then Toc(ts)[i + 1].idx0 else Sectors(ts) % U32
  }

  lemma {:induction false} StartIs(ts: seq<Track>, i: nat)
    requires i < |ts| && Sectors(ts) < U32
    ensures Toc(ts)[i].idx0 == Sectors(ts[..i])
  {
    hide Stored, Toc, Sectors;
    TocAt(ts, i);
    SectorsGrow(ts, i, |ts|);
    assert ts[..|ts|] == ts;
  }

  /** Sizes that 32 bits can hold tile the image: each track ends where the next begins, the first begins at 0. */
  lemma {:induction false} TracksTile(ts: seq<Track>, i: nat)
    requires i < |ts| && Sectors(ts) < U32
    ensures NextStart(ts, i) == Toc(ts)[i].idx0 + Stored(ts[i]) == Sectors(ts[..i + 1]) <= Sectors(ts)
    ensures Toc(ts)[0].idx0 == 0 && NextStart(ts, |ts| - 1) == Sectors(ts)
  {
    assert Sectors(ts[..0]) == 0;
    hide Stored, Toc, Sectors, NextStart;
    StartIs(ts, i);
    StartIs(ts, 0);
    PrefixGrows(ts, i);
    NextIs(ts, i);
    NextIs(ts, |ts| - 1);
    assert ts[..|ts|] == ts;
    SectorsGrow(ts, i + 1, |ts|);
  }

  lemma {:induction false} NextIs(ts: seq<Track>, i: nat)
    requires i < |ts| && Sectors(ts) < U32
    ensures NextStart(ts, i) == Sectors(ts[..i + 1])
  {
    hide Stored, Toc, Sectors;
    if i + 1 < |ts| {
      StartIs(ts, i + 1);
    } else {
      assert ts[..i + 1] == ts;
    }
  }

  /** The first track whose end does not fit in 32 bits. */
  lemma {:induction false} FirstOver(ts: seq<Track>) returns (i: nat)
    requires Sectors(ts) >= U32
    ensures i < |ts| && Sectors(ts[..i]) < U32 <= Sectors(ts[..i + 1])
    decreases |ts|
  {
    var n := |ts| - 1;
    if Sectors(ts[..n]) >= U32 {
      i := FirstOver(ts[..n]);
      assert ts[..n][..i] == ts[..i] && ts[..n][..i + 1] == ts[..i + 1];
    } else {
      i := n;
      assert ts[..n + 1] == ts;
    }
  }

  lemma NextIsWrapped(ts: seq<Track>, i: nat)
    requires i < |ts|
    ensures NextStart(ts, i) == Sectors(ts[..i + 1]) % U32
  {
    hide Stored, Toc, Sectors;
    if i + 1 < |ts| {
      TocAt(ts, i + 1);
    } else {
      assert ts[..i + 1] == ts;
    }
  }

  /** Exactly then: each track ends where the next begins, for all tracks, if and only if the sizes fit in 32 bits. */
  lemma {:induction false} TilesIff(ts: seq<Track>)
    ensures (forall i: nat :: i < |ts| ==> NextStart(ts, i) == Toc(ts)[i].idx0 + Stored(ts[i])) <==> Sectors(ts) < U32
  {
    hide Stored, Toc, Sectors, NextStart, DescAt;
    if Sectors(ts) < U32 {
      forall i: nat | i < |ts|
        ensures NextStart(ts, i) == Toc(ts)[i].idx0 + Stored(ts[i])
      {
        TracksTile(ts, i);
      }
    } else {
      var i := FirstOver(ts);
      PrefixGrows(ts, i);
      NextIsWrapped(ts, i);
      StartWrapped(ts, i);
      assert NextStart(ts, i) < U32 <= Toc(ts)[i].idx0 + Stored(ts[i]);
    }
  }

  lemma StartWrapped(ts: seq<Track>, i: nat)
    requires i < |ts|
    ensures Toc(ts)[i].idx0 == Sectors(ts[..i]) % U32
  {
    hide Stored, Toc, Sectors;
    TocAt(ts, i);
  }

  /** Three tracks that do not tile: the third starts at 0xFFFFFFF8 and the image ends at 0x7FFFFFF4. */
  lemma TracksOverlap(kind: string) returns (ts: seq<Track>)
    ensures |ts| == 3 && (forall t <- ts :: t.frames == 0x7FFF_FFFC)
    ensures Toc(ts)[2].idx0 == 0xFFFF_FFF8 && NextStart(ts, 2) == 0x7FFF_FFF4
  {
    var t := Track(1, kind, 0x7FFF_FFFC, 0, false);
    ts := [t, t, t];
    assert Stored(t) == 0x7FFF_FFFC;
    hide Stored, Toc, DescAt;
    assert Sectors(ts[..0]) == 0;
    PrefixGrows(ts, 0);
    PrefixGrows(ts, 1);
    PrefixGrows(ts, 2);
    StartWrapped(ts, 2);
    NextIsWrapped(ts, 2);
  }

  /** Every sector of the image belongs to exactly one track. */
  lemma {:induction false} OneTrackEach(ts: seq<Track>, s: nat) returns (i: nat)
    requires s < Sectors(ts) < U32
    ensures i < |ts| && Toc(ts)[i].idx0 <= s < NextStart(ts, i)
    ensures forall j: nat :: j < |ts| && Toc(ts)[j].idx0 <= s < NextStart(ts, j) ==> j == i
  {
    hide Toc, NextStart, Sectors, Stored;
    i := TrackOf(ts, s);
    TracksTile(ts, i);
    StartIs(ts, i);
    forall j: nat | j < |ts| && Toc(ts)[j].idx0 <= s < NextStart(ts, j)
      ensures j == i
    {
      TracksTile(ts, j);
      StartIs(ts, j);
      SectorsGrow(ts, j + 1, i);
      SectorsGrow(ts, i + 1, j);
    }
  }

  lemma {:induction false} TrackOf(ts: seq<Track>, s: nat) returns (i: nat)
    requires s < Sectors(ts)
    ensures i < |ts| && Sectors(ts[..i]) <= s < Sectors(ts[..i]) + Stored(ts[i])
    decreases |ts|
  {
    var n := |ts| - 1;
    if s < Sectors(ts[..n]) {
      i := TrackOf(ts[..n], s);
      assert ts[..n][..i] == ts[..i];
    } else {
      i := n;
    }
  }

  // ----- Copying sectors out of hunks -----

  type Bytes = seq<bv8>

  /** hunkbytes and unitbytes of the header, the latter with its default put in. */
  datatype Shape = Shape(hunkBytes: nat, unitBytes: nat)

  /** A unit size of 0 stands for 2448. */
  function ShapeOf(hunkBytes: nat, unitBytes: nat): (sh: Shape)
    requires hunkBytes < U32 && unitBytes < U32
    ensures IsShape(sh)
  {
    Shape(hunkBytes, if unitBytes == 0 then 2448 else unitBytes)
  }

  predicate IsShape(sh: Shape) {
    0 < sh.unitBytes < U32 && sh.hunkBytes < U32
  }

  function PerHunk(sh: Shape): nat
    requires IsShape(sh)
  {
    sh.hunkBytes / sh.unitBytes
  }

  function CopySize(sh: Shape): (n: nat)
    ensures n <= SECTOR && n <= sh.unitBytes
  {
    if sh.unitBytes < SECTOR then sh.unitBytes else SECTOR
  }

  /** What chd_read gives for each hunk; None where it fails. */
  predicate AreHunks(sh: Shape, hunks: seq<Option<Bytes>>) {
    forall h :: 0 <= h < |hunks| && hunks[h].Some? ==> |hunks[h].value| == sh.hunkBytes
  }

  /** Hunks before the first that cannot be read. */
  function Good(hunks: seq<Option<Bytes>>): (n: nat)
    ensures n <= |hunks| && (forall h :: 0 <= h < n ==> hunks[h].Some?) && (n < |hunks| ==> hunks[n].None?)
  {
    if |hunks| == 0 || hunks[0].None? then 0 else Good(hunks[1..]) + 1
  }

  /** Byte j of unit s. */
  function UnitByte(sh: Shape, hunks: seq<Option<Bytes>>, s: nat, j: nat): bv8
    requires IsShape(sh)
  {
    var n := PerHunk(sh);
    if n == 0 || s / n >= |hunks| || hunks[s / n].None? then 0
    else
      var i := s % n * sh.unitBytes + j;
      if i < |hunks[s / n].value| then hunks[s / n].value[i] else 0
  }

  /** Byte j of sector s once the first k units have been copied. */
  function SectorByte(sh: Shape, hunks: seq<Option<Bytes>>, k: nat, s: nat, j: nat): bv8
    requires IsShape(sh)
  {
    if s < k && j < CopySize(sh) then UnitByte(sh, hunks, s, j) else 0
  }

  /** The image holds the first k units, each at its sector, and zeros elsewhere. */
  ghost predicate Holds(m: Bytes, sh: Shape, hunks: seq<Option<Bytes>>, k: nat)
    requires IsShape(sh)
  {
    forall p: nat :: p < |m| ==> m[p] == SectorByte(sh, hunks, k, p / SECTOR, p % SECTOR)
  }

  /** The sector unit u of hunk h is copied to, counted in 32 bits. */
  function SectorNo(n: nat, h: nat, u: nat): (s: nat)
    ensures s < U32
  {
    (h * n + u) % U32
  }

  /** The inner loop of hunk h gets past its first u units: none of them lies behind the image. */
  predicate Open(n: nat, total: nat, h: nat, u: nat) {
    forall v: nat :: v < u ==> SectorNo(n, h, v) < total
  }

  /** Byte p of the image when the loops stand before unit u of hunk h: the last unit copied over p tells. */
  function After(sh: Shape, hunks: seq<Option<Bytes>>, total: nat, h: nat, u: nat, p: nat): bv8
    requires IsShape(sh)
    decreases h, u
  {
    var n := PerHunk(sh);
    if u == 0 then
      if h == 0 then 0 else After(sh, hunks, total, h - 1, n, p)
    else
      var dst := SectorNo(n, h, u - 1) * SECTOR % U32;
      if Open(n, total, h, u) && dst <= p < dst + CopySize(sh) then UnitByte(sh, hunks, h * n + u - 1, p - dst)
      else After(sh, hunks, total, h, u - 1, p)
  }

  ghost predicate Is(m: Bytes, sh: Shape, hunks: seq<Option<Bytes>>, total: nat, h: nat, u: nat)
    requires IsShape(sh)
  {
    forall p: nat :: p < |m| ==> m[p] == After(sh, hunks, total, h, u, p)
  }

  /** Sectors whose byte offset fits in 32 bits. */
  const MAX_SECTORS := 1_826_092

  /** Hunk h starts beyond 2^32 units, where their count wraps, and inside the image. */
  predicate StartsAgain(n: nat, total: nat, h: nat) {
    h * n >= U32 && SectorNo(n, h, 0) < total
  }

  /** No byte offset wraps for a unit that is copied, and no hunk starts a second pass over the image. */
  predicate Safe(good: nat, n: nat, total: nat) {
    Min(good * n, total) <= MAX_SECTORS && forall h: nat :: h < good ==> !StartsAgain(n, total, h)
  }

  lemma UnitOf(h: nat, u: nat, n: nat)
    requires u < n
    ensures (h * n + u) / n == h && (h * n + u) % n == u
  {
    var a := h * n + u;
    var q, r := a / n, a % n;
    var x, y := h * n, q * n;
    assert a == y + r && 0 <= r < n;
    Multiple(h - q, n);
    Multiple(q - h, n);
    assert (h - q) * n == x - y && (q - h) * n == y - x;
  }

  lemma InsideHunk(sh: Shape, u: nat)
    requires IsShape(sh) && u < PerHunk(sh)
    ensures u * sh.unitBytes + sh.unitBytes <= sh.hunkBytes
  {
    var n, w := PerHunk(sh), sh.unitBytes;
    assert n * w <= sh.hunkBytes;
    Multiple(n - u, w);
    assert (n - u) * w == n * w - u * w;
  }

  /** memcpy into the image. */
  method CopyBytes(merged: array<bv8>, dst: nat, src: Bytes)
    requires dst + |src| <= merged.Length
    modifies merged
    ensures merged[..] == old(merged[..dst]) + src + old(merged[dst + |src|..])
  {
    for i := 0 to |src|
      invariant forall p :: 0 <= p < merged.Length ==>
        merged[p] == if dst <= p < dst + i then src[p - dst] else old(merged[p])
    {
      merged[dst + i] := src[i];
    }
  }

  lemma SectorOf(p: nat, k: nat)
    ensures k * SECTOR <= p < k * SECTOR + SECTOR ==> p / SECTOR == k && p % SECTOR == p - k * SECTOR
    ensures p < k * SECTOR ==> p / SECTOR < k
    ensures p >= k * SECTOR + SECTOR ==> p / SECTOR > k
  {
  }

  /** The bytes of unit u of hunk h, which start at `at`, are those of unit k. */
  lemma UnitRead(sh: Shape, hunks: seq<Option<Bytes>>, h: nat, u: nat, k: nat, at: nat)
    requires IsShape(sh) && h < |hunks| && hunks[h].Some? && |hunks[h].value| == sh.hunkBytes && u < PerHunk(sh)
    requires k == h * PerHunk(sh) + u && at == u * sh.unitBytes
    ensures at + CopySize(sh) <= sh.hunkBytes
    ensures forall j: nat :: j < CopySize(sh) ==> UnitByte(sh, hunks, k, j) == hunks[h].value[at + j]
  {
    hide UnitByte, PerHunk;
    InsideHunk(sh, u);
    forall j: nat | j < CopySize(sh)
      ensures UnitByte(sh, hunks, k, j) == hunks[h].value[at + j]
    {
      UnitByteAt(sh, hunks, h, u, k, at, j);
    }
  }

  lemma UnitByteAt(sh: Shape, hunks: seq<Option<Bytes>>, h: nat, u: nat, k: nat, at: nat, j: nat)
    requires IsShape(sh) && h < |hunks| && hunks[h].Some? && u < PerHunk(sh)
    requires k == h * PerHunk(sh) + u && at == u * sh.unitBytes
    ensures UnitByte(sh, hunks, k, j) == if at + j < |hunks[h].value| then hunks[h].value[at + j] else 0
  {
    hide PerHunk;
    UnitOf(h, u, PerHunk(sh));
  }

  /** The inner loop: the units of hunk h, up to the first that lies behind the image. */
  method CopyUnits(merged: array<bv8>, sh: Shape, ghost hunks: seq<Option<Bytes>>, h: nat, hunk: Bytes, total: nat)
    requires IsShape(sh) && AreHunks(sh, hunks) && h < |hunks| && hunks[h] == Some(hunk)
    requires merged.Length == total * SECTOR && total < U32 && Is(merged[..], sh, hunks, total, h, 0)
    modifies merged
    ensures Is(merged[..], sh, hunks, total, h + 1, 0)
  {
    hide Is, UnitByte, After, AreHunks;
    var perHunk := sh.hunkBytes / sh.unitBytes;
    assert |hunk| == sh.hunkBytes by { HunkSize(sh, hunks, h); }
    for u := 0 to perHunk
      invariant Open(perHunk, total, h, u) && Is(merged[..], sh, hunks, total, h, u)
    {
      var sector := (h * perHunk + u) % U32;
      if sector >= total {
        assert SectorNo(perHunk, h, u) >= total;
        StaysShut(merged[..], sh, hunks, total, h, u, perHunk);
        break;
      }
      var dst := sector * SECTOR % U32;
      var at := u * sh.unitBytes;
      UnitRead(sh, hunks, h, u, h * perHunk + u, at);
      var src := hunk[at..at + CopySize(sh)];
      OpenMore(perHunk, total, h, u);
      UnitPut(merged[..], sh, hunks, total, h, u, src);
      ghost var m := merged[..];
      CopyBytes(merged, dst, src);
      assert merged[..] == m[..dst] + src + m[dst + |src|..];
    }
    HunkDone(merged[..], sh, hunks, total, h);
  }

  lemma HunkSize(sh: Shape, hunks: seq<Option<Bytes>>, h: nat)
    requires AreHunks(sh, hunks) && h < |hunks| && hunks[h].Some?
    ensures |hunks[h].value| == sh.hunkBytes
  {
  }

  lemma OpenMore(n: nat, total: nat, h: nat, u: nat)
    requires Open(n, total, h, u) && SectorNo(n, h, u) < total
    ensures Open(n, total, h, u + 1)
  {
    hide SectorNo;
  }

  /** One unit copied. */
  lemma UnitPut(m: Bytes, sh: Shape, hunks: seq<Option<Bytes>>, total: nat, h: nat, u: nat, src: Bytes)
    requires IsShape(sh) && Is(m, sh, hunks, total, h, u) && Open(PerHunk(sh), total, h, u + 1)
    requires |src| == CopySize(sh) && SectorNo(PerHunk(sh), h, u) * SECTOR % U32 + |src| <= |m|
    requires forall j: nat :: j < |src| ==> src[j] == UnitByte(sh, hunks, h * PerHunk(sh) + u, j)
    ensures var dst := SectorNo(PerHunk(sh), h, u) * SECTOR % U32;
      Is(m[..dst] + src + m[dst + |src|..], sh, hunks, total, h, u + 1)
  {
    hide UnitByte, SectorNo, PerHunk, Open;
  }

  /** After the first unit behind the image the rest of the hunk changes nothing. */
  lemma {:induction false} StaysShut(m: Bytes, sh: Shape, hunks: seq<Option<Bytes>>, total: nat, h: nat,
      u: nat, v: nat)
    requires IsShape(sh) && Is(m, sh, hunks, total, h, u) && SectorNo(PerHunk(sh), h, u) >= total && u <= v
    ensures Is(m, sh, hunks, total, h, v)
    decreases v
  {
    hide UnitByte, SectorNo, PerHunk;
    if u < v {
      StaysShut(m, sh, hunks, total, h, u, v - 1);
    }
  }

  lemma HunkDone(m: Bytes, sh: Shape, hunks: seq<Option<Bytes>>, total: nat, h: nat)
    requires IsShape(sh) && Is(m, sh, hunks, total, h, PerHunk(sh))
    ensures Is(m, sh, hunks, total, h + 1, 0)
  {
    hide UnitByte, SectorNo, PerHunk, Open;
  }

  /** The outer loop stops at the first hunk that cannot be read. */
  method CopyHunks(merged: array<bv8>, sh: Shape, hunks: seq<Option<Bytes>>, total: nat)
    requires IsShape(sh) && AreHunks(sh, hunks) && merged.Length == total * SECTOR && total < U32
    requires Is(merged[..], sh, hunks, total, 0, 0)
    modifies merged
    ensures Is(merged[..], sh, hunks, total, Good(hunks), 0)
  {
    hide Is;
    for h := 0 to |hunks|
      invariant h <= Good(hunks) && Is(merged[..], sh, hunks, total, h, 0)
    {
      if hunks[h].None? {
        break;
      }
      CopyUnits(merged, sh, hunks, h, hunks[h].value, total);
    }
  }

  // ----- When the image is the disc -----

  /** While sizes are safe, the loops have filled exactly the units they have passed. */
  lemma {:induction false} SafeFills(sh: Shape, hunks: seq<Option<Bytes>>, good: nat, total: nat, h: nat,
      u: nat, p: nat)
    requires IsShape(sh) && Safe(good, PerHunk(sh), total) && total < U32 && p < total * SECTOR
    requires (h < good && u <= PerHunk(sh)) || (h == good && u == 0)
    ensures After(sh, hunks, total, h, u, p)
      == SectorByte(sh, hunks, h * PerHunk(sh) + u, p / SECTOR, p % SECTOR)
    decreases h, u
  {
    hide UnitByte, PerHunk, Safe, Open, SectorNo, CopySize;
    var n := PerHunk(sh);
    if u == 0 {
      if h > 0 {
        SafeFills(sh, hunks, good, total, h - 1, n, p);
        NextHunk(h - 1, n);
      }
    } else {
      SafeFills(sh, hunks, good, total, h, u - 1, p);
      var k := h * n + u - 1;
      if Open(n, total, h, u) {
        OpenUnit(good, n, total, h, u);
        assert SectorNo(n, h, u - 1) * SECTOR % U32 == k * SECTOR;
        SectorOf(p, k);
      } else {
        ShutUnit(n, total, h, u);
        SectorOf(p, total);
      }
    }
  }

  lemma NextHunk(h: nat, n: nat)
    ensures h * n + n == (h + 1) * n
  {
  }

  /** With safe sizes a unit that is copied has a number and an offset that fit. */
  lemma OpenUnit(good: nat, n: nat, total: nat, h: nat, u: nat)
    requires Safe(good, n, total) && total < U32 && h < good && 0 < u <= n && Open(n, total, h, u)
    ensures SectorNo(n, h, u - 1) == h * n + u - 1 < total && (h * n + u - 1) * SECTOR < U32
  {
    UnitBelow(good, n, h, u);
    FirstPass(good, n, total, h);
    assert Min(good * n, total) <= MAX_SECTORS;
    hide Safe;
    var base := h * n;
    if base + u > U32 {
      LastNumber(n, total, h, u);
    }
    LowNumber(n, h, u - 1);
    assert SectorNo(n, h, u - 1) < total;
    assert base + u - 1 < MAX_SECTORS;
  }

  lemma FirstPass(good: nat, n: nat, total: nat, h: nat)
    requires Safe(good, n, total) && h < good && 0 < n && Open(n, total, h, 1)
    ensures h * n < U32
  {
    hide SectorNo;
    assert !StartsAgain(n, total, h) && SectorNo(n, h, 0) < total;
  }

  lemma LowNumber(n: nat, h: nat, u: nat)
    ensures h * n + u < U32 ==> SectorNo(n, h, u) == h * n + u
  {
    var k := h * n + u;
  }

  /** The count of a hunk that is copied does not run into 2^32 - 1, which lies behind every image. */
  lemma LastNumber(n: nat, total: nat, h: nat, u: nat)
    requires h * n < U32 < h * n + u && total < U32
    ensures !Open(n, total, h, u)
  {
    LowNumber(n, h, U32 - 1 - h * n);
    hide SectorNo;
    assert SectorNo(n, h, U32 - 1 - h * n) == U32 - 1 >= total;
  }

  lemma UnitBelow(good: nat, n: nat, h: nat, u: nat)
    requires h < good && u <= n
    ensures h * n + u <= good * n
  {
    Multiple(good - h, n);
    assert (good - h) * n == good * n - h * n;
  }

  /** A unit that is not copied lies behind the image. */
  lemma ShutUnit(n: nat, total: nat, h: nat, u: nat)
    requires 0 < u && !Open(n, total, h, u)
    ensures h * n + u - 1 >= total
  {
    var v: nat :| v < u && SectorNo(n, h, v) >= total;
    ModAtMost(h * n + v);
  }

  lemma ModAtMost(a: nat)
    ensures a % U32 <= a
  {
  }

  /** Hunks of zeros but for the first byte of unit v of hunk g. */
  function OneAt(sh: Shape, good: nat, g: nat, v: nat): (hunks: seq<Option<Bytes>>)
    ensures |hunks| == good && AreHunks(sh, hunks) && (forall h :: 0 <= h < good ==> hunks[h].Some?)
  {
    seq(good, h requires 0 <= h < good => Some(seq(sh.hunkBytes, i requires 0 <= i < sh.hunkBytes =>
      if h == g && i == v * sh.unitBytes then 1 as bv8 else 0)))
  }

  lemma OneAtIs(sh: Shape, good: nat, g: nat, v: nat, h: nat, i: nat)
    requires h < good && i < sh.hunkBytes
    ensures var hunks := OneAt(sh, good, g, v);
      |hunks[h].value| == sh.hunkBytes && hunks[h].value[i] == if h == g && i == v * sh.unitBytes then 1 else 0
  {
  }

  lemma {:induction false} AllGood(hunks: seq<Option<Bytes>>)
    requires forall h :: 0 <= h < |hunks| ==> hunks[h].Some?
    ensures Good(hunks) == |hunks|
  {
    if |hunks| > 0 {
      AllGood(hunks[1..]);
    }
  }

  lemma OneAtByte(sh: Shape, good: nat, g: nat, v: nat, h: nat, u: nat, k: nat, j: nat)
    requires IsShape(sh) && h < good && u < PerHunk(sh) && j < sh.unitBytes && k == h * PerHunk(sh) + u
    ensures UnitByte(sh, OneAt(sh, good, g, v), k, j) == if h == g && u == v && j == 0 then 1 else 0
  {
    hide OneAt, PerHunk, UnitByte;
    InsideHunk(sh, u);
    OneAtIs(sh, good, g, v, h, u * sh.unitBytes + j);
    UnitByteAt(sh, OneAt(sh, good, g, v), h, u, k, u * sh.unitBytes, j);
    SameUnit(u, v, sh.unitBytes, j);
  }

  lemma SameUnit(u: nat, v: nat, w: nat, j: nat)
    requires j < w
    ensures u * w + j == v * w <==> u == v && j == 0
  {
    Multiple(u - v, w);
    Multiple(v - u, w);
    assert (u - v) * w == u * w - v * w && (v - u) * w == v * w - u * w;
  }

  lemma InHunk(k: nat, n: nat, good: nat)
    requires 0 < n && k < good * n
    ensures k / n < good && k % n < n && k == k / n * n + k % n
  {
    var q := k / n;
    assert k == q * n + k % n;
    Multiple(q + 1 - good, n);
    assert (q + 1 - good) * n == q * n + n - good * n;
  }

  /**
   The loops stand before unit `at` of hunk `from` and byte p is 0. It stays 0 if the unit with the 1 has
   been passed, or puts its 1 elsewhere.
   */
  lemma {:induction false} StaysZero(sh: Shape, good: nat, g: nat, v: nat, total: nat, from: nat, at: nat,
      h: nat, u: nat, p: nat)
    requires IsShape(sh)
    requires After(sh, OneAt(sh, good, g, v), total, from, at, p) == 0
    requires g < from || SectorNo(PerHunk(sh), g, v) * SECTOR % U32 != p
    requires from < h || (from == h && at <= u)
    requires at <= PerHunk(sh) && ((h < good && u <= PerHunk(sh)) || (h == good && u == 0))
    ensures After(sh, OneAt(sh, good, g, v), total, h, u, p) == 0
    decreases h, u
  {
    hide UnitByte, PerHunk, OneAt, After, CopySize, SectorNo;
    var n, hunks := PerHunk(sh), OneAt(sh, good, g, v);
    if from == h && at == u {
    } else if u == 0 {
      StaysZero(sh, good, g, v, total, from, at, h - 1, n, p);
      AfterHunk(sh, hunks, total, h, p);
    } else {
      StaysZero(sh, good, g, v, total, from, at, h, u - 1, p);
      AfterUnit(sh, hunks, total, h, u - 1, p);
      var dst := SectorNo(n, h, u - 1) * SECTOR % U32;
      if dst <= p < dst + CopySize(sh) {
        OneAtByte(sh, good, g, v, h, u - 1, h * n + u - 1, p - dst);
      }
    }
  }

  lemma AfterHunk(sh: Shape, hunks: seq<Option<Bytes>>, total: nat, h: nat, p: nat)
    requires IsShape(sh) && h > 0
    ensures After(sh, hunks, total, h, 0, p) == After(sh, hunks, total, h - 1, PerHunk(sh), p)
  {
  }

  lemma AfterUnit(sh: Shape, hunks: seq<Option<Bytes>>, total: nat, h: nat, u: nat, p: nat)
    requires IsShape(sh)
    ensures var dst := SectorNo(PerHunk(sh), h, u) * SECTOR % U32;
      After(sh, hunks, total, h, u + 1, p) == After(sh, hunks, total, h, u, p)
      || (dst <= p < dst + CopySize(sh)
          && After(sh, hunks, total, h, u + 1, p) == UnitByte(sh, hunks, h * PerHunk(sh) + u, p - dst))
  {
    hide UnitByte, PerHunk, Open, SectorNo, CopySize;
  }

  /** The disc is in the image: each unit that was read at its sector, zeros elsewhere. */
  ghost predicate Faithful(sh: Shape, hunks: seq<Option<Bytes>>, good: nat, total: nat)
    requires IsShape(sh)
  {
    forall p: nat :: p < total * SECTOR ==>
      After(sh, hunks, total, good, 0, p) == SectorByte(sh, hunks, good * PerHunk(sh), p / SECTOR, p % SECTOR)
  }

  /** Sector q should hold the 1 of unit v of hunk g and does not. */
  lemma Missing(sh: Shape, good: nat, g: nat, v: nat, total: nat, q: nat)
    requires IsShape(sh) && g < good && v < PerHunk(sh) && q == g * PerHunk(sh) + v && q < total
    requires After(sh, OneAt(sh, good, g, v), total, good, 0, q * SECTOR) == 0
    ensures !Faithful(sh, OneAt(sh, good, g, v), good, total)
  {
    hide UnitByte, PerHunk, After, OneAt;
    OneAtByte(sh, good, g, v, g, v, q, 0);
    SectorOf(q * SECTOR, q);
    Multiple(good - g, PerHunk(sh));
    assert (good - g) * PerHunk(sh) == good * PerHunk(sh) - g * PerHunk(sh);
  }

  /** More units, inside the image, than offsets fit. */
  lemma TooMany(sh: Shape, good: nat, total: nat) returns (g: nat, v: nat)
    requires IsShape(sh) && Min(good * PerHunk(sh), total) > MAX_SECTORS
    ensures !Faithful(sh, OneAt(sh, good, g, v), good, total)
  {
    hide UnitByte, PerHunk, After, OneAt, Faithful;
    var n, q := PerHunk(sh), MAX_SECTORS;
    InHunk(q, n, good);
    g, v := q / n, q % n;
    assert SectorNo(n, g, v) == q;
    FromNothing(sh, OneAt(sh, good, g, v), total, q * SECTOR);
    StaysZero(sh, good, g, v, total, 0, 0, good, 0, q * SECTOR);
    Missing(sh, good, g, v, total, q);
  }

  /** Hunk h overwrites the sector it starts again at. */
  lemma SecondPass(sh: Shape, good: nat, total: nat, h: nat) returns (g: nat, v: nat)
    requires IsShape(sh) && h < good && StartsAgain(PerHunk(sh), total, h) && total <= MAX_SECTORS
    ensures !Faithful(sh, OneAt(sh, good, g, v), good, total)
  {
    hide UnitByte, PerHunk, OneAt, Faithful;
    var n, q := PerHunk(sh), SectorNo(PerHunk(sh), h, 0);
    InHunk(q, n, h);
    g, v := q / n, q % n;
    var hunks := OneAt(sh, good, g, v);
    OneAtByte(sh, good, g, v, h, 0, h * n, 0);
    assert Open(n, total, h, 1);
    assert After(sh, hunks, total, h, 1, q * SECTOR) == UnitByte(sh, hunks, h * n, 0);
    hide After;
    StaysZero(sh, good, g, v, total, h, 1, good, 0, q * SECTOR);
    Missing(sh, good, g, v, total, q);
  }

  /** Sizes that are not safe: hunks whose image is wrong. */
  lemma UnsafeLoses(sh: Shape, good: nat, total: nat) returns (hunks: seq<Option<Bytes>>)
    requires IsShape(sh) && total < U32 && !Safe(good, PerHunk(sh), total)
    ensures AreHunks(sh, hunks) && |hunks| == Good(hunks) == good && !Faithful(sh, hunks, good, total)
  {
    hide PerHunk, AreHunks, Good, OneAt, Faithful, StartsAgain;
    var n := PerHunk(sh);
    var g, v;
    if Min(good * n, total) > MAX_SECTORS {
      g, v := TooMany(sh, good, total);
    } else {
      var h: nat :| h < good && StartsAgain(n, total, h);
      AllCounted(n, good, total, h);
      g, v := SecondPass(sh, good, total, h);
    }
    hunks := OneAt(sh, good, g, v);
    AllGood(hunks);
  }

  lemma AllCounted(n: nat, good: nat, total: nat, h: nat)
    requires h < good && StartsAgain(n, total, h) && total < U32
    ensures total < good * n
  {
    Multiple(good - h, n);
    assert (good - h) * n == good * n - h * n;
  }

  lemma FromNothing(sh: Shape, hunks: seq<Option<Bytes>>, total: nat, p: nat)
    requires IsShape(sh)
    ensures After(sh, hunks, total, 0, 0, p) == 0
  {
  }

  /** The image holds the disc for every content of the hunks, if and only if the sizes are safe. */
  lemma ImageIff(sh: Shape, good: nat, total: nat)
    requires IsShape(sh) && total < U32
    ensures (forall hunks | AreHunks(sh, hunks) && |hunks| >= Good(hunks) == good :: Faithful(sh, hunks, good, total))
      <==> Safe(good, PerHunk(sh), total)
  {
    hide AreHunks, Good, PerHunk, Safe;
    if Safe(good, PerHunk(sh), total) {
      forall hunks | AreHunks(sh, hunks) && |hunks| >= Good(hunks) == good
        ensures Faithful(sh, hunks, good, total)
      {
        SafeIsFaithful(sh, hunks, good, total);
      }
    } else {
      var hunks := UnsafeLoses(sh, good, total);
    }
  }

  lemma SafeIsFaithful(sh: Shape, hunks: seq<Option<Bytes>>, good: nat, total: nat)
    requires IsShape(sh) && total < U32 && Safe(good, PerHunk(sh), total)
    ensures Faithful(sh, hunks, good, total)
  {
    hide After, SectorByte, PerHunk, Safe;
    forall p: nat | p < total * SECTOR
      ensures After(sh, hunks, total, good, 0, p) == SectorByte(sh, hunks, good * PerHunk(sh), p / SECTOR, p % SECTOR)
    {
      SafeFills(sh, hunks, good, total, good, 0, p);
    }
  }

  /** With no more than 2^32 units the condition is one comparison. */
  lemma SafeUsually(good: nat, n: nat, total: nat)
    requires good * n <= U32
    ensures Safe(good, n, total) <==> Min(good * n, total) <= MAX_SECTORS
  {
    forall h: nat | h < good
      ensures !StartsAgain(n, total, h)
    {
      Multiple(good - h, n);
      assert (good - h) * n == good * n - h * n;
    }
  }

  /** One sector more than fits: it lands on byte 1,088 of sector 0, and its own place stays empty. */
  lemma SectorLost(hunks: seq<Option<Bytes>>, total: nat)
    requires MAX_SECTORS < total < U32
    ensures var sh, k := Shape(SECTOR, SECTOR), MAX_SECTORS;
      After(sh, hunks, total, k + 1, 0, 1088) == UnitByte(sh, hunks, k, 0)
      && After(sh, hunks, total, k + 1, 0, k * SECTOR) == 0
  {
    hide UnitByte;
    var sh, k := Shape(SECTOR, SECTOR), MAX_SECTORS;
    assert SectorNo(1, k, 0) == k && Open(1, total, k, 1);
    assert After(sh, hunks, total, k, 1, 1088) == UnitByte(sh, hunks, k, 0);
    NeverWritten(hunks, total, k + 1);
  }

  lemma {:induction false} NeverWritten(hunks: seq<Option<Bytes>>, total: nat, h: nat)
    requires h <= MAX_SECTORS + 1
    ensures After(Shape(SECTOR, SECTOR), hunks, total, h, 0, MAX_SECTORS * SECTOR) == 0
  {
    hide UnitByte, Open;
    if h > 0 {
      NeverWritten(hunks, total, h - 1);
      AfterUnit(Shape(SECTOR, SECTOR), hunks, total, h - 1, 0, MAX_SECTORS * SECTOR);
    }
  }

  // ----- The whole function -----

  /** What is added to the set of files: the table and the image, or nothing without tracks. */
  datatype Disc = NoDisc | Disc(toc: seq<Desc>, image: Bytes)

  /** mfs_add_chd_path, from the metadata and hunks on. */
  method AddChd(tracks: seq<Track>, hunkBytes: nat, unitBytes: nat, hunks: seq<Option<Bytes>>) returns (d: Disc)
    requires hunkBytes < U32 && unitBytes < U32 && AreHunks(ShapeOf(hunkBytes, unitBytes), hunks)
    ensures d.NoDisc? <==> |tracks| == 0
    ensures d.Disc? ==> d.toc == Toc(tracks) && |d.image| == Sectors(tracks) % U32 * SECTOR
    ensures d.Disc? ==> Is(d.image, ShapeOf(hunkBytes, unitBytes), hunks, Sectors(tracks) % U32, Good(hunks), 0)
    ensures var sh, total, good := ShapeOf(hunkBytes, unitBytes), Sectors(tracks) % U32, Good(hunks);
      d.Disc? && Safe(good, PerHunk(sh), total) ==> Holds(d.image, sh, hunks, good * PerHunk(sh))
  {
    hide Safe, Is, Holds;
    if |tracks| == 0 {
      return NoDisc;
    }
    var sh := ShapeOf(hunkBytes, unitBytes);
    var total := TotalSectors(tracks);
    var merged := new bv8[total * SECTOR](_ => 0);
    assert Is(merged[..], sh, hunks, total, 0, 0) by { NothingYet(merged[..], sh, hunks, total); }
    CopyHunks(merged, sh, hunks, total);
    var toc, end := BuildToc(tracks);
    d := Disc(toc, merged[..]);
    if Safe(Good(hunks), PerHunk(sh), total) {
      SafeIsFaithful(sh, hunks, Good(hunks), total);
      FaithfulHolds(d.image, sh, hunks, Good(hunks), total);
    }
  }

  lemma NothingYet(m: Bytes, sh: Shape, hunks: seq<Option<Bytes>>, total: nat)
    requires IsShape(sh) && forall p :: 0 <= p < |m| ==> m[p] == 0
    ensures Is(m, sh, hunks, total, 0, 0)
  {
  }

  lemma FaithfulHolds(m: Bytes, sh: Shape, hunks: seq<Option<Bytes>>, good: nat, total: nat)
    requires IsShape(sh) && |m| == total * SECTOR && Is(m, sh, hunks, total, good, 0)
    requires Faithful(sh, hunks, good, total)
    ensures Holds(m, sh, hunks, good * PerHunk(sh))
  {
    hide After, SectorByte, PerHunk;
  }

  /**
   For every disc whose sizes are safe: the table tiles the image exactly, and sector s is unit s, cut
   to 2352 bytes, if its hunk was read, and zeros otherwise.
   */
  lemma {:induction false} SectorIsUnit(tracks: seq<Track>, sh: Shape, hunks: seq<Option<Bytes>>, image: Bytes,
      s: nat, j: nat)
    requires IsShape(sh) && Sectors(tracks) < U32 && |image| == Sectors(tracks) * SECTOR
    requires Is(image, sh, hunks, Sectors(tracks), Good(hunks), 0)
    requires Safe(Good(hunks), PerHunk(sh), Sectors(tracks)) && s < Sectors(tracks) && j < SECTOR
    ensures s * SECTOR + j < |image|
    ensures image[s * SECTOR + j] ==
      if s < Good(hunks) * PerHunk(sh) && j < CopySize(sh) then UnitByte(sh, hunks, s, j) else 0
  {
    hide UnitByte, Sectors, Good, Safe, PerHunk, After;
    SafeIsFaithful(sh, hunks, Good(hunks), Sectors(tracks));
    SectorOf(s * SECTOR + j, s);
  }
}
