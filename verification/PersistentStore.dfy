/** The write-back store: battery RAM mirrored to a file, and the host that syncs and closes it. */
module PersistentStore {
  import opened Common

  type Bytes = seq<bv8>

  /** Files by path, and the paths that can be created or opened for update. */
  class Disk {
    var files: map<string, Bytes>
    const writable: set<string>

    constructor (files: map<string, Bytes>, writable: set<string>)
      ensures this.files == files && this.writable == writable
    {
      this.files := files;
      this.writable := writable;
    }
  }

  /** `top` over the front of `base`, as fread, fwrite at offset 0 and memcpy leave it. */
  function Overlay(top: Bytes, base: Bytes): (r: Bytes)
    ensures |r| == if |top| < |base| then |base| else |top|
    ensures r[..|top|] == top
  {
    if |top| < |base| then top + base[|top|..] else top
  }

  /** A new store: the fill byte, seeded from the cart image if there is one. */
  function FreshImage(size: nat, fill: bv8, init: Option<Bytes>): (r: Bytes)
    ensures |r| == size
  {
    var filled := seq(size, _ => fill);
    if init.None? then filled else Overlay(init.value[..Min(|init.value|, size)], filled)
  }

  function ClipPath(path: string): string {
    if |path| < 500 then path else path[..499]
  }

  class Store {
    var data: array?<bv8>
    var actualSize: nat
    var fill: bv8
    var init: Option<Bytes>
    var requestedSize: nat
    var readyToUse: bool
    var dirty: bool
    var persistent: bool
    var filename: string
    var fno: Option<string>          // the path behind the open FILE
    var oldRequestedSize: nat

    constructor (requestedSize: nat, fill: bv8, init: Option<Bytes>, persistent: bool)
      ensures data == null && fno == None && !dirty && !readyToUse && oldRequestedSize == 0
      ensures this.requestedSize == requestedSize && this.fill == fill && this.init == init &&
        this.persistent == persistent
    {
      data, fno, dirty, readyToUse, oldRequestedSize, actualSize, filename := null, None, false, false, 0, 0, "";
      this.requestedSize, this.fill, this.init, this.persistent := requestedSize, fill, init, persistent;
    }

    /** Memory with a file behind it. */
    predicate Open()
      reads `persistent, `fno, `data
    {
      persistent && fno.Some? && data != null
    }

    predicate Sound(disk: Disk)
      reads `persistent, `fno, `data, `actualSize, disk
    {
      Open() ==> actualSize == data.Length && fno.value in disk.files
    }

    /** The file starts with what is in memory. */
    predicate Saved(disk: Disk)
      requires Open() && Sound(disk)
      reads `persistent, `fno, `data, `actualSize, data, disk
    {
      actualSize <= |disk.files[fno.value]| && disk.files[fno.value][..actualSize] == data[..]
    }

    /** A core's write: it marks the store. */
    method Write(i: nat, v: bv8)
      requires data != null && i < data.Length
      modifies this`dirty, data
      ensures data[..] == old(data[..])[i := v] && dirty
    {
      data[i] := v;
      dirty := true;
    }
  }

  predicate CanOpen(disk: Disk, path: string)
    reads disk
  {
    path in disk.files && path in disk.writable
  }

  /** Whether setting up at `path` gives memory the file holds in full. */
  predicate LongEnough(disk: Disk, path: string, size: nat)
    reads disk
  {
    CanOpen(disk, path) ==> size <= |disk.files[path]|
  }

  /** A buffer of |junk| bytes whose front is `image`, as malloc and fread or memcpy leave it. */
  method Allocate(junk: Bytes, image: Bytes) returns (data: array<bv8>)
    requires |image| <= |junk|
    ensures fresh(data) && data[..] == Overlay(image, junk)
  {
    data := new bv8[|junk|](i requires 0 <= i < |junk| => junk[i]);
    for i := 0 to |image|
      invariant forall j :: 0 <= j < i ==> data[j] == image[j]
      invariant forall j :: i <= j < |junk| ==> data[j] == junk[j]
    {
      data[i] := image[i];
    }
    assert data[..] == image + junk[|image|..];
    assert |image| == |junk| ==> junk[|image|..] == [];
  }

  /** The files once `path` is there, if it may be; a file that was there is as it was. */
  function Created(files: map<string, Bytes>, path: string, may: bool, image: Bytes): map<string, Bytes> {
    if may && path !in files then files[path := image] else files
  }

  /** Open the file at ps.filename, creating it with a fresh image if it is not there. */
  method OpenOrCreate(ps: Store, disk: Disk)
    modifies ps`fno, disk
    ensures ps.fno == if ps.filename in disk.writable then Some(ps.filename) else None
    ensures disk.files == Created(old(disk.files), ps.filename, ps.filename in disk.writable,
                                  FreshImage(ps.requestedSize, ps.fill, ps.init))
  {
    ps.fno := None;
    if CanOpen(disk, ps.filename) {
      ps.fno := Some(ps.filename);
    } else if ps.filename in disk.writable {
      disk.files := disk.files[ps.filename := FreshImage(ps.requestedSize, ps.fill, ps.init)];
      ps.fno := Some(ps.filename);
    }
  }

  /** The front of a file that fread puts in a buffer of `size` bytes. */
  function Front(file: Bytes, size: nat): (r: Bytes)
    ensures |r| == Min(|file|, size)
  {
    file[..Min(|file|, size)]
  }

  lemma FrontIsSaved(file: Bytes, junk: Bytes)
    ensures var data := Overlay(Front(file, |junk|), junk);
      |data| == |junk| && (|junk| <= |file| ==> file[..|junk|] == data)
  {
  }

  /**
   finish_setup_ps; `junk` is what malloc returned. A store with a file behind it is saved exactly
   if the file was there in full or is new.
   */
  method FinishSetup(ps: Store, disk: Disk, junk: Bytes)
    requires |junk| == ps.requestedSize
    modifies ps, disk
    ensures ps.filename == old(ps.filename) && ps.persistent == old(ps.persistent) && ps.dirty == old(ps.dirty)
    ensures ps.data != null && fresh(ps.data) && ps.data.Length == |junk| && ps.readyToUse
    ensures old(ps.persistent) ==>
      && ps.fno == (if ps.filename in disk.writable then Some(ps.filename) else None)
      && ps.actualSize == ps.requestedSize == ps.oldRequestedSize == |junk|
      && disk.files == Created(old(disk.files), ps.filename, ps.filename in disk.writable,
                               FreshImage(|junk|, old(ps.fill), old(ps.init)))
    ensures old(ps.persistent) && ps.filename in disk.writable ==>
      && ps.Open() && ps.Sound(disk)
      && ps.data[..] == Overlay(Front(disk.files[ps.filename], |junk|), junk)
      && (ps.Saved(disk) <==> old(LongEnough(disk, ps.filename, ps.requestedSize)))
    ensures old(ps.persistent) && ps.filename !in disk.writable ==>
      ps.data[..] == FreshImage(|junk|, old(ps.fill), old(ps.init))
    ensures !old(ps.persistent) ==>
      && ps.actualSize == ps.requestedSize == ps.oldRequestedSize == old(ps.oldRequestedSize)
      && ps.fno == old(ps.fno) && disk.files == old(disk.files) && ps.data[..] == junk
  {
    hide Overlay, FreshImage, Front;
    if ps.persistent {
      OpenOrCreate(ps, disk);
      var image := if ps.fno.Some? then Front(disk.files[ps.filename], ps.requestedSize)
                   else FreshImage(ps.requestedSize, ps.fill, ps.init);
      ps.data := Allocate(junk, image);
      WholeOverlay(image, junk);
      if ps.fno.Some? {
        FrontIsSaved(disk.files[ps.filename], junk);
      }
      ps.oldRequestedSize := ps.requestedSize;
    } else {
      ps.data := Allocate(junk, []);
      WholeOverlay([], junk);
    }
    if ps.oldRequestedSize != ps.requestedSize {
      ps.requestedSize := ps.oldRequestedSize;
    }
    ps.actualSize := ps.requestedSize;
    ps.readyToUse := true;
  }

  lemma WholeOverlay(top: Bytes, base: Bytes)
    ensures |top| == |base| ==> Overlay(top, base) == top
    ensures Overlay([], base) == base && |Overlay(top, base)| == if |top| < |base| then |base| else |top|
  {
  }

  // ----- A pass over the stores, as a function on files -----

  /** A store with a file, as a pass sees it. */
  datatype Slot = Slot(path: string, image: Bytes, dirty: bool)

  type Slots = seq<Option<Slot>>

  predicate Present(files: map<string, Bytes>, slots: Slots) {
    forall s <- slots :: s.Some? ==> s.value.path in files
  }

  /** Each dirty image over its file, in the order of registration. */
  function PassOver(files: map<string, Bytes>, slots: Slots): (r: map<string, Bytes>)
    requires Present(files, slots)
    ensures r.Keys == files.Keys
  {
    if |slots| == 0 then files
    else
      var s, r := slots[|slots| - 1], PassOver(files, slots[..|slots| - 1]);
      if s.Some? && s.value.dirty then r[s.value.path := Overlay(s.value.image, r[s.value.path])] else r
  }

  lemma PassNone(files: map<string, Bytes>)
    ensures PassOver(files, []) == files
  {
  }

  lemma PassNext(files: map<string, Bytes>, slots: Slots, i: nat)
    requires i < |slots| && Present(files, slots)
    ensures Present(files, slots[..i]) && Present(files, slots[..i + 1])
    ensures var r := PassOver(files, slots[..i]);
      PassOver(files, slots[..i + 1]) == if slots[i].Some? && slots[i].value.dirty
        then r[slots[i].value.path := Overlay(slots[i].value.image, r[slots[i].value.path])] else r
  {
    hide Overlay;
    assert slots[..i + 1][..i] == slots[..i];
  }

  /** The file starts with the image. */
  predicate InFile(files: map<string, Bytes>, s: Slot) {
    s.path in files && s.image <= files[s.path]
  }

  /** What has not been written since the last pass is in its file. */
  predicate CleanIn(files: map<string, Bytes>, slots: Slots) {
    forall s <- slots :: s.Some? && !s.value.dirty ==> InFile(files, s.value)
  }

  predicate AllIn(files: map<string, Bytes>, slots: Slots) {
    forall s <- slots :: s.Some? ==> InFile(files, s.value)
  }

  predicate Holding(s: Option<Slot>) {
    s.Some? && s.value.image != []
  }

  /** No two open stores with anything in memory use the same file. */
  predicate Apart(slots: Slots) {
    forall i, j :: 0 <= i < j < |slots| && Holding(slots[i]) && Holding(slots[j]) ==>
      slots[i].value.path != slots[j].value.path
  }

  /** With files of their own, stores are saved once a pass is past them, and stay saved. */
  lemma {:induction false} PassSaves(files: map<string, Bytes>, slots: Slots, i: nat, n: nat)
    requires i < |slots| && n <= |slots| && slots[i].Some? && Present(files, slots) && CleanIn(files, slots) &&
      Apart(slots)
    requires i < n || !slots[i].value.dirty
    ensures Present(files, slots[..n]) && InFile(PassOver(files, slots[..n]), slots[i].value)
    decreases n
  {
    if n == 0 {
      assert slots[..0] == [];
    } else {
      assert slots[..n][..n - 1] == slots[..n - 1];
      if i != n - 1 || !slots[i].value.dirty {
        PassSaves(files, slots, i, n - 1);
      }
    }
  }

  /** Slots alike but for what is in memory and whether it has been written. */
  predicate SameShape(slots: Slots, like: Slots) {
    && |slots| == |like|
    && forall i :: 0 <= i < |slots| ==>
      && slots[i].Some? == like[i].Some?
      && (slots[i].Some? ==>
        slots[i].value.path == like[i].value.path && |slots[i].value.image| == |like[i].value.image|)
  }

  /** A forced pass saves every store, whatever the cores wrote since the last one. */
  ghost predicate AlwaysSaves(like: Slots) {
    forall files, slots :: SameShape(slots, like) && Present(files, slots) && CleanIn(files, slots) ==>
      AllIn(PassOver(files, slots), slots)
  }

  /** Every store dirty; slot i full of zeros, all others of ones. */
  function Marked(like: Slots, i: nat): Slots {
    seq(|like|, k requires 0 <= k < |like| =>
      if like[k].None? then None
      else Some(Slot(like[k].value.path, seq(|like[k].value.image|, _ => if k == i then 0 else 1), true)))
  }

  /** No file has anything in it yet. */
  function Blank(slots: Slots): map<string, Bytes> {
    map s | s in slots && s.Some? :: s.value.path := []
  }

  lemma MarkedAt(like: Slots, i: nat, k: nat)
    requires k < |like|
    ensures var s := Marked(like, i); |s| == |like| && s[k].Some? == like[k].Some?
    ensures like[k].Some? ==> var s := Marked(like, i)[k].value;
      && s.path == like[k].value.path && s.dirty && |s.image| == |like[k].value.image|
      && (s.image != [] ==> s.image[0] == if k == i then 0 else 1)
  {
  }

  lemma BlankHas(slots: Slots, n: nat)
    requires n <= |slots|
    ensures Present(Blank(slots), slots[..n]) && Present(Blank(slots), slots)
  {
  }

  lemma OverlayHead(top: Bytes, base: Bytes)
    ensures top == [] ==> Overlay(top, base) == base
    ensures top != [] ==> |Overlay(top, base)| > 0 && Overlay(top, base)[0] == top[0]
  {
  }

  /** Past slot j, the file that i and j share starts with a one. */
  lemma {:induction false} LastWins(like: Slots, i: nat, j: nat, n: nat)
    requires i < j < n <= |like| && Holding(like[i]) && Holding(like[j]) && like[i].value.path == like[j].value.path
    ensures |Marked(like, i)| == |like| && Present(Blank(Marked(like, i)), Marked(like, i)[..n])
    ensures like[i].value.path in Blank(Marked(like, i))
    ensures var s := Marked(like, i); var f := PassOver(Blank(s), s[..n])[like[i].value.path]; |f| > 0 && f[0] == 1
    decreases n
  {
    hide Marked, Overlay, Blank;
    var s, p := Marked(like, i), like[i].value.path;
    MarkedAt(like, i, n - 1);
    MarkedAt(like, i, i);
    BlankHas(s, n);
    BlankHas(s, n - 1);
    assert s[i] in s;
    assert s[..n][..n - 1] == s[..n - 1];
    var r := PassOver(Blank(s), s[..n - 1]);
    if s[n - 1].Some? {
      OverlayHead(s[n - 1].value.image, r[s[n - 1].value.path]);
    }
    if n - 1 > j {
      LastWins(like, i, j, n - 1);
    }
  }

  /** The image of slot i is not in front of a file that starts with a one. */
  lemma ZeroLost(like: Slots, i: nat, files: map<string, Bytes>)
    requires i < |like| && Holding(like[i]) && like[i].value.path in files
    requires |files[like[i].value.path]| > 0 && files[like[i].value.path][0] == 1
    ensures !AllIn(files, Marked(like, i))
  {
    hide Marked;
    MarkedAt(like, i, i);
    var s := Marked(like, i)[i].value;
    assert s.image[0] == 0;
    assert Marked(like, i)[i] in Marked(like, i);
  }

  lemma MarkedClean(like: Slots, i: nat)
    ensures SameShape(Marked(like, i), like) && Present(Blank(Marked(like, i)), Marked(like, i)) &&
      CleanIn(Blank(Marked(like, i)), Marked(like, i))
  {
    hide Marked, Blank;
    forall k: nat | k < |like|
      ensures |Marked(like, i)| == |like| && Marked(like, i)[k].Some? == like[k].Some?
      ensures like[k].Some? ==> var s := Marked(like, i)[k].value;
        s.path == like[k].value.path && |s.image| == |like[k].value.image| && s.dirty
    {
      MarkedAt(like, i, k);
    }
    MarkedLength(like, i);
    BlankHas(Marked(like, i), 0);
  }

  lemma MarkedLength(like: Slots, i: nat)
    ensures |Marked(like, i)| == |like|
  {
  }

  lemma ApartSaves(like: Slots, files: map<string, Bytes>, slots: Slots)
    requires Apart(like) && SameShape(slots, like) && Present(files, slots) && CleanIn(files, slots)
    ensures AllIn(PassOver(files, slots), slots)
  {
    forall i: nat | i < |slots| && slots[i].Some?
      ensures InFile(PassOver(files, slots), slots[i].value)
    {
      assert slots[..|slots|] == slots;
      PassSaves(files, slots, i, |slots|);
    }
  }

  /**
   A forced pass, or closing, saves every open store whatever was written if and only if no two of them
   share a file; a store without memory does not count.
   */
  lemma SavesIff(like: Slots)
    ensures AlwaysSaves(like) <==> Apart(like)
  {
    hide PassOver, CleanIn, SameShape, Marked, Blank, AllIn;
    if Apart(like) {
      forall files: map<string, Bytes>, slots: Slots | SameShape(slots, like) && Present(files, slots) &&
        CleanIn(files, slots)
        ensures AllIn(PassOver(files, slots), slots)
      {
        ApartSaves(like, files, slots);
      }
    } else {
      var i: nat, j: nat :| i < j < |like| && Holding(like[i]) && Holding(like[j]) &&
        like[i].value.path == like[j].value.path;
      var s := Marked(like, i);
      LastWins(like, i, j, |like|);
      MarkedClean(like, i);
      assert s[..|like|] == s;
      ZeroLost(like, i, PassOver(Blank(s), s));
    }
  }

  /** Two stores on one file: the pass leaves the second image, and the first is lost. */
  lemma SharedFileLoses()
    ensures var slots := [Some(Slot("a", [1], true)), Some(Slot("a", [2], true))]; var files := map["a" := [1]];
      CleanIn(files, slots) && PassOver(files, slots)["a"] == [2] && !AllIn(PassOver(files, slots), slots)
  {
    var slots: Slots := [Some(Slot("a", [1], true)), Some(Slot("a", [2], true))];
    var files: map<string, Bytes> := map["a" := [1]];
    assert slots[..1] == [slots[0]] && slots[..1][..0] == [];
    assert PassOver(files, slots[..1][..0]) == files;
    assert PassOver(files, slots[..1]) == files["a" := [1]];
    var r := PassOver(files, slots);
    assert r == files["a" := [1]]["a" := [2]];
    assert !InFile(r, slots[0].value) by {
      assert slots[0].value.image[0] == 1 && r["a"][0] == 2;
    }
    assert slots[0] in slots;
  }

  /**
   Two stores set up at p and q are always saved by a forced pass if and only if p and q are different
   paths that do not share their first 499 characters, beyond which a path is clipped.
   */
  lemma PathsClash(p: string, q: string, a: Bytes, b: Bytes)
    requires a != [] && b != []
    ensures AlwaysSaves([Some(Slot(ClipPath(p), a, false)), Some(Slot(ClipPath(q), b, false))])
      <==> p != q && !(|p| >= 499 && |q| >= 499 && p[..499] == q[..499])
  {
    hide AlwaysSaves;
    var like: Slots := [Some(Slot(ClipPath(p), a, false)), Some(Slot(ClipPath(q), b, false))];
    SavesIff(like);
    assert Apart(like) <==> ClipPath(p) != ClipPath(q) by {
      assert Holding(like[0]) && Holding(like[1]);
    }
  }

  // ----- The host -----

  datatype Managed = Managed(ps: Store, primary: bool)

  /** A pass over the stores: when, whether forced, and the interval in force. */
  datatype Pass = Pass(time: real, forced: bool, interval: real)

  /** The list with `ps` in it once. */
  function Registered(ms: seq<Managed>, ps: Store, primary: bool): seq<Managed> {
    if |ms| == 0 then [Managed(ps, primary)]
    else if ms[0].ps == ps then [Managed(ps, ms[0].primary || primary)] + ms[1..]
    else [ms[0]] + Registered(ms[1..], ps, primary)
  }

  lemma {:induction false} RegisteredAt(ms: seq<Managed>, ps: Store, primary: bool, i: nat)
    requires i < |ms| && ms[i].ps == ps && forall j :: 0 <= j < i ==> ms[j].ps != ps
    ensures Registered(ms, ps, primary) == ms[i := Managed(ps, ms[i].primary || primary)]
  {
    if i > 0 {
      RegisteredAt(ms[1..], ps, primary, i - 1);
    }
  }

  lemma {:induction false} RegisteredEnd(ms: seq<Managed>, ps: Store, primary: bool)
    requires forall j :: 0 <= j < |ms| ==> ms[j].ps != ps
    ensures Registered(ms, ps, primary) == ms + [Managed(ps, primary)]
  {
    if |ms| > 0 {
      RegisteredEnd(ms[1..], ps, primary);
    }
  }

  predicate Once(ms: seq<Managed>) {
    forall i, j :: 0 <= i < j < |ms| ==> ms[i].ps != ms[j].ps
  }

  /** No store is registered twice, and no other store comes or goes. */
  lemma {:induction false} RegisteredOnce(ms: seq<Managed>, ps: Store, primary: bool)
    requires Once(ms)
    ensures var r := Registered(ms, ps, primary);
      && Once(r) && (exists i :: 0 <= i < |r| && r[i].ps == ps)
      && (forall i :: 0 <= i < |r| ==> r[i].ps == ps || r[i] in ms)
      && (forall m <- ms :: m.ps != ps ==> m in r)
  {
    if |ms| > 0 && ms[0].ps != ps {
      RegisteredOnce(ms[1..], ps, primary);
      var r := Registered(ms[1..], ps, primary);
      var i :| 0 <= i < |r| && r[i].ps == ps;
      assert ([ms[0]] + r)[i + 1].ps == ps;
    } else if |ms| > 0 {
      assert Registered(ms, ps, primary)[0].ps == ps;
    } else {
      assert Registered(ms, ps, primary)[0].ps == ps;
    }
  }

  class Host {
    const disk: Disk
    var stores: seq<Managed>
    var lastSync: real
    var intervalMs: int
    ghost var passes: seq<Pass>

    /** The registered stores. */
    ghost function Stores(): set<Store>
      reads `stores
    {
      set m | m in stores :: m.ps
    }

    /** Registered once each, with sizes that match; buffers are not shared. */
    ghost predicate Valid()
      reads `stores, disk, Stores()`persistent, Stores()`fno, Stores()`data, Stores()`actualSize
    {
      && Once(stores)
      && (forall i :: 0 <= i < |stores| ==> stores[i].ps.Sound(disk))
      && (forall i, j :: 0 <= i < j < |stores| && stores[i].ps.data != null ==> stores[i].ps.data != stores[j].ps.data)
    }

    /** Every unforced pass comes at least one interval after the pass before it. */
    ghost predicate Throttled()
      reads `passes, `lastSync
    {
      && (forall i :: 0 < i < |passes| && !passes[i].forced ==>
        passes[i].time - passes[i - 1].time >= passes[i].interval)
      && (passes != [] ==> lastSync == passes[|passes| - 1].time)
    }

    /** No two stores write the same file. */
    ghost predicate OwnFiles()
      reads `stores, Stores()`persistent, Stores()`fno, Stores()`data
    {
      forall i, j :: 0 <= i < j < |stores| && stores[i].ps.Open() && stores[j].ps.Open() ==>
        stores[i].ps.fno != stores[j].ps.fno
    }

    ghost function Buffers(): set<array<bv8>>
      reads `stores, Stores()`data
    {
      set m | m in stores && m.ps.data != null :: m.ps.data
    }

    /** The registered stores as a pass sees them. */
    ghost function Shelf(): (r: Slots)
      requires Valid()
      reads `stores, disk, Stores(), Buffers()
      ensures |r| == |stores| && Present(disk.files, r)
      ensures forall i :: 0 <= i < |stores| ==>
        r[i] == if stores[i].ps.Open() then Some(Slot(stores[i].ps.fno.value, stores[i].ps.data[..],
          stores[i].ps.dirty)) else None
    {
      ShelfUpTo(|stores|)
    }

    ghost function ShelfUpTo(n: nat): (r: Slots)
      requires Valid() && n <= |stores|
      reads `stores, disk, Stores(), Buffers()
      ensures |r| == n && Present(disk.files, r)
      ensures forall i :: 0 <= i < n ==>
        r[i] == if stores[i].ps.Open() then Some(Slot(stores[i].ps.fno.value, stores[i].ps.data[..],
          stores[i].ps.dirty)) else None
    {
      if n == 0 then []
      else
        var ps := stores[n - 1].ps;
        assert ps in Stores() && ps.Sound(disk);
        ShelfUpTo(n - 1) + [if ps.Open() then Some(Slot(ps.fno.value, ps.data[..], ps.dirty)) else None]
    }

    /** A store that is not dirty is in its file. */
    ghost predicate Clean()
      requires Valid()
      reads `stores, disk, Stores(), Buffers()
    {
      forall i :: 0 <= i < |stores| && stores[i].ps.Open() && !stores[i].ps.dirty ==> stores[i].ps.Saved(disk)
    }

    constructor (disk: Disk, intervalMs: int)
      ensures this.disk == disk && stores == [] && Valid() && Clean() && OwnFiles() && Throttled()
      ensures lastSync == -1000000000.0 && this.intervalMs == intervalMs
    {
      this.disk := disk;
      this.intervalMs := intervalMs;
      stores, passes, lastSync := [], [], -1000000000.0;
    }

    /** One store's turn in a pass: written if it is dirty and has a file. */
    method Flush(i: nat)
      requires Valid() && i < |stores|
      modifies disk, stores[i].ps`dirty
      ensures Valid()
      ensures stores[i].ps.Open() ==> !stores[i].ps.dirty
      ensures !stores[i].ps.Open() ==> stores[i].ps.dirty == old(stores[i].ps.dirty)
      ensures OwnFiles() && old(Clean()) ==> Clean()
      ensures disk.files == if stores[i].ps.Open() && old(stores[i].ps.dirty)
        then var f := old(stores[i].ps.fno.value);
          old(disk.files)[f := Overlay(stores[i].ps.data[..], old(disk.files)[f])]
        else old(disk.files)
    {
      ghost var files := disk.files;
      var ps := stores[i].ps;
      if ps.persistent && ps.dirty && ps.fno.Some? && ps.data != null {
        disk.files := disk.files[ps.fno.value := Overlay(ps.data[..ps.actualSize], disk.files[ps.fno.value])];
        ps.dirty := false;
        assert ps.Saved(disk);
        forall j | 0 <= j < |stores|
          ensures stores[j].ps.Sound(disk)
          ensures j != i && stores[j].ps.Open() && stores[j].ps.fno != ps.fno ==>
            disk.files[stores[j].ps.fno.value] == files[stores[j].ps.fno.value]
        {
          assert old(stores[j].ps.Sound(disk));
        }
      }
    }

    /** Memory of a store with a file is in that file. */
    ghost predicate AllSaved()
      requires Valid()
      reads `stores, disk, Stores(), Buffers()
    {
      forall i :: 0 <= i < |stores| && stores[i].ps.Open() ==> !stores[i].ps.dirty && stores[i].ps.Saved(disk)
    }

    lemma CleanAll()
      requires Valid() && Clean()
      requires forall j :: 0 <= j < |stores| && stores[j].ps.Open() ==> !stores[j].ps.dirty
      ensures AllSaved()
    {
    }

    lemma FilesHold()
      requires Valid() && AllSaved()
      ensures forall i :: 0 <= i < |stores| && stores[i].ps.Open() ==>
        stores[i].ps.fno.value in disk.files && stores[i].ps.data[..] <= disk.files[stores[i].ps.fno.value]
    {
      forall i | 0 <= i < |stores| && stores[i].ps.Open()
        ensures stores[i].ps.fno.value in disk.files && stores[i].ps.data[..] <= disk.files[stores[i].ps.fno.value]
      {
        assert stores[i].ps.Saved(disk);
      }
    }

    lemma AllClean()
      requires Valid() && AllSaved()
      ensures Clean()
    {
    }

    /** The loop of a pass. */
    method FlushAll()
      requires Valid()
      modifies disk, Stores()`dirty
      ensures Valid() && (OwnFiles() && old(Clean()) ==> AllSaved())
      ensures disk.files == PassOver(old(disk.files), old(Shelf()))
    {
      hide Host.Valid, Host.Clean, Host.OwnFiles, Host.AllSaved, PassOver, Host.Shelf, Overlay;
      ghost var slots := Shelf();
      PassNone(disk.files);
      for i := 0 to |stores|
        invariant Valid()
        invariant disk.files == PassOver(old(disk.files), slots[..i])
        invariant forall j :: i <= j < |stores| ==> stores[j].ps.dirty == old(stores[j].ps.dirty)
        invariant forall j :: 0 <= j < i && stores[j].ps.Open() ==> !stores[j].ps.dirty
        invariant OwnFiles() && old(Clean()) ==> Clean()
      {
        PassNext(old(disk.files), slots, i);
        Flush(i);
      }
      assert slots[..|stores|] == slots;
      if OwnFiles() && old(Clean()) {
        CleanAll();
      }
    }

    /** sync_persistent_storage at time `now`. */
    method Sync(force: bool, now: real)
      requires Valid() && Throttled()
      modifies `lastSync, `passes, disk, Stores()`dirty
      ensures Valid() && Throttled()
      ensures stores != [] && (force || now - old(lastSync) >= intervalMs as real / 1000.0) ==>
        && lastSync == now && passes == old(passes) + [Pass(now, force, intervalMs as real / 1000.0)]
        && (OwnFiles() && old(Clean()) ==> AllSaved()) && disk.files == PassOver(old(disk.files), old(Shelf()))
      ensures stores == [] || !(force || now - old(lastSync) >= intervalMs as real / 1000.0) ==>
        lastSync == old(lastSync) && passes == old(passes) && unchanged(disk) && unchanged(Stores())
      ensures OwnFiles() && old(Clean()) ==> Clean()
    {
      hide Host.Valid, Host.Clean, Host.OwnFiles, Store.Saved, Store.Open, Store.Sound, PassOver, Host.Shelf;
      if |stores| == 0 {
        return;
      }
      var interval := intervalMs as real / 1000.0;
      if !force {
        if now - lastSync < interval {
          return;
        }
      }
      FlushAll();
      lastSync := now;
      passes := passes + [Pass(now, force, interval)];
      if OwnFiles() && old(Clean()) {
        AllClean();
      }
    }

    /** A core's write to store i keeps what is not dirty in its file. */
    method CoreWrite(i: nat, k: nat, v: bv8)
      requires Valid() && i < |stores| && stores[i].ps.data != null && k < stores[i].ps.data.Length
      modifies stores[i].ps`dirty, stores[i].ps.data
      ensures Valid() && stores[i].ps.dirty && stores[i].ps.data[..] == old(stores[i].ps.data[..])[k := v]
      ensures old(Clean()) ==> Clean()
    {
      stores[i].ps.Write(k, v);
    }

    /** primary_store: the index of the first primary store. */
    method PrimaryStore() returns (r: Option<nat>)
      ensures r.Some? ==> r.value < |stores| && stores[r.value].primary && forall j :: 0 <= j < r.value ==>
        !stores[j].primary
      ensures r.None? ==> forall j :: 0 <= j < |stores| ==> !stores[j].primary
    {
      for i := 0 to |stores|
        invariant forall j :: 0 <= j < i ==> !stores[j].primary
      {
        if stores[i].primary {
          return Some(i);
        }
      }
      return None;
    }

    /** Restoring store i from the copy in a save state; the copy is taken only if its size fits. */
    method RestoreCopy(i: nat, copy: Bytes)
      requires Valid() && i < |stores| &&
        (stores[i].ps.data != null ==> stores[i].ps.actualSize <= stores[i].ps.data.Length)
      modifies stores[i].ps`dirty, if stores[i].ps.data != null then {stores[i].ps.data} else {}
      ensures Valid() && (old(Clean()) ==> Clean())
      ensures var ps := stores[i].ps;
        if ps.data != null && |copy| > 0 && |copy| == ps.actualSize then ps.dirty &&
          ps.data[..] == Overlay(copy, old(ps.data[..]))
        else ps.dirty == old(ps.dirty) && (ps.data != null ==> ps.data[..] == old(ps.data[..]))
    {
      var ps := stores[i].ps;
      if ps.data != null && |copy| > 0 && |copy| == ps.actualSize {
        ps.dirty := true;
        for j := 0 to |copy|
          invariant ps.dirty && forall n :: 0 <= n < j ==> ps.data[n] == copy[n]
          invariant forall n :: j <= n < ps.data.Length ==> ps.data[n] == old(ps.data[..])[n]
        {
          ps.data[j] := copy[j];
        }
        assert ps.data[..] == copy + old(ps.data[..])[|copy|..];
      }
    }

    /** The end of setup_persistent_store: registered once, promoted to primary if asked. */
    method Register(ps: Store, primary: bool)
      modifies `stores
      ensures stores == Registered(old(stores), ps, primary)
    {
      for i := 0 to |stores|
        invariant stores == old(stores)
        invariant forall j :: 0 <= j < i ==> stores[j].ps != ps
      {
        if stores[i].ps == ps {
          stores := stores[i := Managed(ps, stores[i].primary || primary)];
          RegisteredAt(old(stores), ps, primary, i);
          return;
        }
      }
      RegisteredEnd(stores, ps, primary);
      stores := stores + [Managed(ps, primary)];
    }

    /** Setting up a store leaves the others as they were. */
    method Reopen(ps: Store, path: string, junk: Bytes)
      requires Valid() && |junk| == ps.requestedSize
      modifies ps, disk
      ensures ps.Sound(disk) && ps.data != null && fresh(ps.data) && ps.filename == ClipPath(path)
      ensures ps.persistent == old(ps.persistent) && ps.dirty == old(ps.dirty) &&
        (ps.Open() ==> ps.fno == Some(ClipPath(path)))
      ensures var clipped := ClipPath(path);
        disk.files == Created(old(disk.files), clipped, old(ps.persistent) && clipped in disk.writable,
                              FreshImage(|junk|, old(ps.fill), old(ps.init)))
      ensures forall j :: 0 <= j < |stores| && stores[j].ps != ps ==> stores[j].ps.Sound(disk)
      ensures old(Clean()) ==> forall j :: 0 <= j < |stores| && stores[j].ps != ps ==>
        stores[j].ps.Open() && !stores[j].ps.dirty ==> stores[j].ps.Saved(disk)
      ensures old(ps.persistent ==> LongEnough(disk, ClipPath(path), ps.requestedSize)) && ps.Open() ==> ps.Saved(disk)
    {
      ghost var files := disk.files;
      ps.filename := ClipPath(path);
      FinishSetup(ps, disk, junk);
      forall j | 0 <= j < |stores| && stores[j].ps != ps
        ensures stores[j].ps.Sound(disk)
        ensures stores[j].ps.Open() ==> disk.files[stores[j].ps.fno.value] == files[stores[j].ps.fno.value]
      {
        assert old(stores[j].ps.Sound(disk));
      }
    }

    /** setup_persistent_store. */
    method Setup(ps: Store, path: string, primary: bool, junk: Bytes)
      requires Valid() && |junk| == ps.requestedSize
      modifies `stores, ps, disk
      ensures Valid() && ps.filename == ClipPath(path) && (ps.Open() ==> ps.fno == Some(ClipPath(path)))
      ensures ps.persistent == old(ps.persistent) && ps.dirty == old(ps.dirty)
      ensures var clipped := ClipPath(path);
        disk.files == Created(old(disk.files), clipped, old(ps.persistent) && clipped in disk.writable,
                              FreshImage(|junk|, old(ps.fill), old(ps.init)))
      ensures stores == Registered(old(stores), ps, primary)
      ensures old(OwnFiles()) && (forall m <- old(stores) :: m.ps != ps && old(m.ps.Open()) ==>
        old(m.ps.fno) != Some(ClipPath(path)))
        ==> OwnFiles()
      ensures old(Clean()) && old(ps.persistent ==> LongEnough(disk, ClipPath(path), ps.requestedSize)) ==> Clean()
    {
      hide Store.Open, Store.Sound, Store.Saved, LongEnough, ClipPath, Registered, FreshImage, Created;
      Reopen(ps, path, junk);
      Register(ps, primary);
      RegisteredOnce(old(stores), ps, primary);
    }

    method CloseAll()
      requires Once(stores)
      modifies `stores, Stores()
      ensures stores == []
      ensures forall m <- old(stores) ::
        m.ps.data == null && m.ps.fno == None && m.ps.actualSize == 0 && !m.ps.readyToUse && !m.ps.dirty
    {
      for i := 0 to |stores|
        invariant stores == old(stores)
        invariant forall j :: 0 <= j < i ==> var ps := stores[j].ps;
          ps.data == null && ps.fno == None && ps.actualSize == 0 && !ps.readyToUse && !ps.dirty
      {
        var ps := stores[i].ps;
        ps.fno := None;
        ps.data := null;
        ps.actualSize := 0;
        ps.oldRequestedSize := 0;
        ps.readyToUse := false;
        ps.dirty := false;
      }
      stores := [];
    }

    /** close_persistent_storage: afterwards the files hold the last memory images. */
    method Close(now: real)
      requires Valid() && Throttled()
      modifies `stores, `lastSync, `passes, disk, Stores()
      ensures stores == [] && Valid() && Throttled() && Clean()
      ensures disk.files == if old(stores) == [] then old(disk.files) else PassOver(old(disk.files), old(Shelf()))
      ensures old(OwnFiles() && Clean()) ==> forall i :: 0 <= i < |old(stores)| && old(stores[i].ps.Open()) ==>
        old(stores[i].ps.fno.value) in disk.files
        && old(stores[i].ps.data[..]) <= disk.files[old(stores[i].ps.fno.value)]
      ensures forall m <- old(stores) ::
        m.ps.data == null && m.ps.fno == None && m.ps.actualSize == 0 && !m.ps.readyToUse && !m.ps.dirty
    {
      hide Host.Clean, Host.AllSaved, Store.Saved, Store.Sound, Host.OwnFiles, PassOver, Host.Shelf;
      Sync(true, now);
      if old(OwnFiles() && Clean()) && |stores| > 0 {
        FilesHold();
      }
      CloseAll();
      NoneClean();
    }

    lemma NoneClean()
      requires stores == []
      ensures Valid() && Clean()
    {
    }
  }
}
