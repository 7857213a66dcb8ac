/** Whole histories of a cache: opened, used by any number of threads and closed, again and again, while
    the remote file and the configured block size change in between. */
module CacheHistory {
  import opened Prelude
  import opened Blocks
  import opened LittleEndian
  import opened MetaCodec
  import opened CacheFiles
  import CacheState
  import CacheInv
  import CacheRuns
  import CacheTheorems

  /** One version of the remote file, with its modification time. */
  datatype Version = Version(time: int, bytes: seq<byte>)

  /** Changed content shows in the time or in the length. */
  ghost predicate Honest(all: iset<Version>) {
    && (forall v :: v in all ==> Fits(v.time, 8) && Fits(|v.bytes|, 8))
    && (forall v, w :: v in all && w in all && v.time == w.time && |v.bytes| == |w.bytes| ==> v.bytes == w.bytes)
  }

  function Bits(seg: seq<byte>): (r: seq<bool>)
    ensures |r| == |seg|
  {
    seq(|seg|, i requires 0 <= i < |seg| => seg[i] != 0)
  }

  /** The mark bytes at closing: Seg_set stores 1, what was set before is kept. */
  function SavedMarks(seg: seq<byte>, saved: seq<bool>): (r: seq<byte>)
    requires |saved| == |seg|
    ensures |r| == |seg|
  {
    seq(|seg|, i requires 0 <= i < |seg| => if !saved[i] then 0 else if seg[i] != 0 then seg[i] else 1)
  }

  function ParamsOf(v: Version, blksz: int, segbc: int, workers: nat): Params {
    Params(v.bytes, Max(blksz, 0), Max(segbc, 0), workers)
  }

  /** A complete cache on disk holds, for each marked block, the bytes of the version it describes. */
  ghost predicate FilesOk(f: Files, all: iset<Version>) {
    forall v :: v in all && ValidOnDisk(f, v.time, |v.bytes|) ==> DiskOk(f, v)
  }

  ghost predicate DiskOk(f: Files, v: Version)
    requires ValidOnDisk(f, v.time, |v.bytes|)
  {
    var h := GetHeader(f.meta.value);
    CacheInv.Coherent(ParamsOf(v, h.blksz, h.segbc, 1), Bits(Marks(f.meta.value)), f.data.value)
  }

  /** The files after the last Cache_close of a session that ended in state `s`. */
  function Closed(f: Files, v: Version, o: Opened, saved: seq<bool>, disk: seq<byte>): Files
    requires f.meta.Some? && |saved| == |o.seg| && Representable(Header(v.time, |v.bytes|, o.blksz, o.segbc))
  {
    Files(Some(Overwrite(f.meta.value, Encode(Header(v.time, |v.bytes|, o.blksz, o.segbc), SavedMarks(o.seg, saved)))), Some(disk))
  }

  /** One session: opened on files `f` for version `v`, run in any interleaving until closed. */
  ghost predicate Session(f: Files, v: Version, blksz: int, workers: nat, f': Files)
    requires Fits(v.time, 8) && Fits(|v.bytes|, 8) && Fits(blksz, 4) && blksz > 0
  {
    match OpenSpec(f, v.time, |v.bytes|, blksz)
    case (None, f1) => f' == f1
    case (Some(o), f1) =>
      && f1.meta.Some? && f1.data.Some? && o.blksz > 0 && Representable(Header(v.time, |v.bytes|, o.blksz, o.segbc))
      && exists s: CacheState.State :: Ends(v, o, workers, f1, s, f')
  }

  ghost predicate Ends(v: Version, o: Opened, workers: nat, f1: Files, s: CacheState.State, f': Files)
    requires f1.meta.Some? && f1.data.Some? && o.blksz > 0 && Representable(Header(v.time, |v.bytes|, o.blksz, o.segbc))
  {
    && CacheRuns.Reachable(ParamsOf(v, o.blksz, o.segbc, workers), Bits(o.seg), f1.data.value, s) && s.life.gone
    && s.file.saved.Some? && |s.file.saved.value| == |o.seg|
    && f' == Closed(f1, v, o, s.file.saved.value, s.file.disk)
  }

  lemma BitsSaved(seg: seq<byte>, saved: seq<bool>)
    requires |saved| == |seg|
    ensures Bits(SavedMarks(seg, saved)) == saved
  {
  }

  /** Coherence does not depend on the number of background slots. */
  lemma AnyWorkers(v: Version, blksz: int, segbc: int, n: nat, m: nat, seg: seq<bool>, disk: seq<byte>)
    requires blksz > 0 && CacheInv.Coherent(ParamsOf(v, blksz, segbc, n), seg, disk)
    ensures CacheInv.Coherent(ParamsOf(v, blksz, segbc, m), seg, disk)
  {
  }

  /** An all-empty bitmap agrees with any data file that is long enough. */
  lemma EmptyCoherent(p: Params, seg: seq<bool>, disk: seq<byte>)
    requires p.blksz > 0 && |seg| == p.segbc && |p.remote| <= |disk| && forall i :: 0 <= i < |seg| ==> !seg[i]
    ensures CacheInv.Coherent(p, seg, disk)
  {
  }

  /** Whatever Cache_open succeeds with agrees with the remote file. */
  lemma OpenedCoherent(f: Files, v: Version, blksz: int, workers: nat, all: iset<Version>)
    requires Honest(all) && v in all && FilesOk(f, all) && Fits(blksz, 4) && blksz > 0
    requires OpenSpec(f, v.time, |v.bytes|, blksz).0.Some?
    ensures var (r, f1) := OpenSpec(f, v.time, |v.bytes|, blksz);
            && ValidOnDisk(f1, v.time, |v.bytes|) && r.value.blksz > 0
            && Writable(Header(v.time, |v.bytes|, r.value.blksz, r.value.segbc), r.value.seg)
            && |v.bytes| <= INT64_MAX - r.value.blksz
            && CacheInv.Coherent(ParamsOf(v, r.value.blksz, r.value.segbc, workers), Bits(r.value.seg), f1.data.value)
  {
    hide CacheInv.Coherent;
    var (r, f1) := OpenSpec(f, v.time, |v.bytes|, blksz);
    OpenSucceedsIff(f, v.time, |v.bytes|, blksz);
    FitsSegments(|v.bytes|, r.value.blksz);
    var p := ParamsOf(v, r.value.blksz, r.value.segbc, workers);
    if ValidOnDisk(f, v.time, |v.bytes|) {
      assert DiskOk(f, v);
      AnyWorkers(v, r.value.blksz, r.value.segbc, 1, workers, Bits(r.value.seg), f1.data.value);
    } else {
      EmptyCoherent(p, Bits(r.value.seg), f1.data.value);
    }
  }

  /** A session keeps the files in agreement with every version of the remote file. */
  lemma SessionKeeps(f: Files, v: Version, blksz: int, workers: nat, f': Files, all: iset<Version>)
    requires Honest(all) && v in all && FilesOk(f, all) && Fits(blksz, 4) && blksz > 0
    requires Session(f, v, blksz, workers, f')
    ensures FilesOk(f', all)
  {
    hide CacheInv.Coherent, CacheRuns.Reachable;
    var (r, f1) := OpenSpec(f, v.time, |v.bytes|, blksz);
    if r.Some? {
      var o := r.value;
      OpenedCoherent(f, v, blksz, workers, all);
      var s: CacheState.State :| Ends(v, o, workers, f1, s, f');
      var p := ParamsOf(v, o.blksz, o.segbc, workers);
      CacheTheorems.Session(p, Bits(o.seg), f1.data.value, s);
      SavedCoherent(f1, v, o, workers, s.file.saved.value, s.file.disk, all);
    }
  }

  lemma SavedCoherent(f1: Files, v: Version, o: Opened, workers: nat, saved: seq<bool>, disk: seq<byte>, all: iset<Version>)
    requires Honest(all) && v in all && f1.meta.Some? && |saved| == |o.seg| && o.blksz > 0
    requires Writable(Header(v.time, |v.bytes|, o.blksz, o.segbc), o.seg) && |v.bytes| <= INT64_MAX - o.blksz
    requires CacheInv.Coherent(ParamsOf(v, o.blksz, o.segbc, workers), saved, disk)
    ensures FilesOk(Closed(f1, v, o, saved, disk), all)
  {
    hide CacheInv.Coherent;
    var f' := Closed(f1, v, o, saved, disk);
    var marks := SavedMarks(o.seg, saved);
    MetaRoundTrip(Header(v.time, |v.bytes|, o.blksz, o.segbc), marks, f1.meta.value);
    BitsSaved(o.seg, saved);
    AnyWorkers(v, o.blksz, o.segbc, workers, 1, saved, disk);
    forall w | w in all && ValidOnDisk(f', w.time, |w.bytes|)
      ensures DiskOk(f', w)
    {
      assert w.bytes == v.bytes;
    }
  }

  // ----- histories -----

  datatype Use = Use(v: Version, blksz: int, workers: nat)

  /** `hist[i + 1]` is what session `uses[i]` leaves of `hist[i]`. */
  ghost predicate History(hist: seq<Files>, uses: seq<Use>, all: iset<Version>) {
    && Honest(all) && |hist| == |uses| + 1
    && forall i :: 0 <= i < |uses| ==>
         && uses[i].v in all && Fits(uses[i].blksz, 4) && uses[i].blksz > 0
         && Session(hist[i], uses[i].v, uses[i].blksz, uses[i].workers, hist[i + 1])
  }

  /** Coherence over whole histories: starting without a cache, after any number of sessions, with the
      remote file changing and the configured block size changing in between, a marked block's bytes in
      the data file are the remote's. */
  lemma {:induction false} HistoryCoherent(hist: seq<Files>, uses: seq<Use>, all: iset<Version>)
    requires History(hist, uses, all) && hist[0] == Files(None, None)
    ensures forall i :: 0 <= i < |hist| ==> FilesOk(hist[i], all)
    decreases |uses|
  {
    if uses == [] {
      assert FilesOk(hist[0], all);
    } else {
      var n := |uses| - 1;
      HistoryCoherent(hist[..n + 1], uses[..n], all);
      assert FilesOk(hist[..n + 1][n], all);
      hide FilesOk, Session;
      SessionKeeps(hist[n], uses[n].v, uses[n].blksz, uses[n].workers, hist[n + 1], all);
      forall i | 0 <= i < |hist|
        ensures FilesOk(hist[i], all)
      {
        assert i <= n ==> hist[..n + 1][i] == hist[i];
      }
    }
  }

  /** Hence every reachable state of the next session satisfies the invariant of the cache machine, and
      what its reads return is the current version. */
  lemma NextSession(hist: seq<Files>, uses: seq<Use>, all: iset<Version>, v: Version, blksz: int, workers: nat, s: CacheState.State)
    requires History(hist, uses, all) && hist[0] == Files(None, None) && v in all && Fits(blksz, 4) && blksz > 0
    requires OpenSpec(hist[|uses|], v.time, |v.bytes|, blksz).0.Some?
    requires var (r, f1) := OpenSpec(hist[|uses|], v.time, |v.bytes|, blksz);
             r.value.blksz > 0 && f1.data.Some? &&
             CacheRuns.Reachable(ParamsOf(v, r.value.blksz, r.value.segbc, workers), Bits(r.value.seg), f1.data.value, s)
    ensures var (r, f1) := OpenSpec(hist[|uses|], v.time, |v.bytes|, blksz);
            CacheInv.Inv(ParamsOf(v, r.value.blksz, r.value.segbc, workers), s, Bits(r.value.seg))
  {
    hide CacheInv.Coherent, CacheRuns.Reachable, CacheInv.Inv;
    HistoryCoherent(hist, uses, all);
    var (r, f1) := OpenSpec(hist[|uses|], v.time, |v.bytes|, blksz);
    OpenedCoherent(hist[|uses|], v, blksz, workers, all);
    CacheRuns.ReachableOk(ParamsOf(v, r.value.blksz, r.value.segbc, workers), Bits(r.value.seg), f1.data.value, s);
  }

  /** Reopening the same version after a session keeps the block size that is on disk, whatever is
      configured now, and every block the earlier session had. */
  lemma ReopenKeeps(f: Files, v: Version, blksz: int, workers: nat, f': Files, blksz': int, all: iset<Version>)
    requires Honest(all) && v in all && FilesOk(f, all) && Fits(blksz, 4) && blksz > 0 && Fits(blksz', 4) && blksz' > 0
    requires OpenSpec(f, v.time, |v.bytes|, blksz).0.Some? && Session(f, v, blksz, workers, f')
    ensures var o, o' := OpenSpec(f, v.time, |v.bytes|, blksz).0, OpenSpec(f', v.time, |v.bytes|, blksz').0;
            && o'.Some? && o'.value.blksz == o.value.blksz && o'.value.segbc == o.value.segbc
            && |o'.value.seg| == |o.value.seg|
            && forall b :: 0 <= b < |o.value.seg| && o.value.seg[b] != 0 ==> o'.value.seg[b] == o.value.seg[b]
  {
    hide CacheInv.Coherent, CacheRuns.Reachable;
    var (r, f1) := OpenSpec(f, v.time, |v.bytes|, blksz);
    var o := r.value;
    OpenedCoherent(f, v, blksz, workers, all);
    var s: CacheState.State :| Ends(v, o, workers, f1, s, f');
    var p := ParamsOf(v, o.blksz, o.segbc, workers);
    CacheTheorems.Session(p, Bits(o.seg), f1.data.value, s);
    CoherentSize(p, s.file.saved.value, s.file.disk);
    MetaRoundTrip(Header(v.time, |v.bytes|, o.blksz, o.segbc), SavedMarks(o.seg, s.file.saved.value), f1.meta.value);
    forall b: nat | b < |o.seg| && o.seg[b] != 0
      ensures s.file.saved.value[b]
    {
      assert CacheState.Exists(Bits(o.seg), b);
    }
  }

  lemma CoherentSize(p: Params, seg: seq<bool>, disk: seq<byte>)
    requires p.blksz > 0 && CacheInv.Coherent(p, seg, disk)
    ensures |seg| == p.segbc && |p.remote| <= |disk|
  {
  }

  /** Reopening the same version after a session finds exactly the bitmap and the data file the session ended with:
      what was stored in one session is there in the next. */
  lemma ReopenFindsSaved(f: Files, v: Version, blksz: int, workers: nat, s: CacheState.State, f': Files, blksz': int, all: iset<Version>)
    requires Honest(all) && v in all && FilesOk(f, all) && Fits(blksz, 4) && blksz > 0 && Fits(blksz', 4) && blksz' > 0
    requires OpenSpec(f, v.time, |v.bytes|, blksz).0.Some?
    requires var (r, f1) := OpenSpec(f, v.time, |v.bytes|, blksz);
             && f1.meta.Some? && f1.data.Some? && r.value.blksz > 0
             && Representable(Header(v.time, |v.bytes|, r.value.blksz, r.value.segbc)) && Ends(v, r.value, workers, f1, s, f')
    ensures var (o', f2) := OpenSpec(f', v.time, |v.bytes|, blksz');
            && o'.Some? && f2.data == Some(s.file.disk)
            && |o'.value.seg| == |s.file.saved.value|
            && forall b: nat :: b < |o'.value.seg| ==> (o'.value.seg[b] != 0 <==> s.file.saved.value[b])
  {
    hide CacheInv.Coherent, CacheRuns.Reachable;
    var (r, f1) := OpenSpec(f, v.time, |v.bytes|, blksz);
    var o := r.value;
    OpenedCoherent(f, v, blksz, workers, all);
    var p := ParamsOf(v, o.blksz, o.segbc, workers);
    CacheTheorems.Session(p, Bits(o.seg), f1.data.value, s);
    CoherentSize(p, s.file.saved.value, s.file.disk);
    MetaRoundTrip(Header(v.time, |v.bytes|, o.blksz, o.segbc), SavedMarks(o.seg, s.file.saved.value), f1.meta.value);
    BitsSaved(o.seg, s.file.saved.value);
    forall b: nat | b < |o.seg|
      ensures SavedMarks(o.seg, s.file.saved.value)[b] != 0 <==> s.file.saved.value[b]
    {
      assert Bits(SavedMarks(o.seg, s.file.saved.value))[b] == s.file.saved.value[b];
    }
  }

  /** In an open cache every block of the file has its mark, and there is no mark past the file's end; a file of at
      least INT_MAX whole blocks is the exception, whose last blocks have none. */
  lemma BlocksHaveMarks(f: Files, v: Version, blksz: int, workers: nat, i: nat)
    requires Fits(v.time, 8) && Fits(|v.bytes|, 8) && Fits(blksz, 4) && blksz > 0 && i < |v.bytes|
    requires OpenSpec(f, v.time, |v.bytes|, blksz).0.Some?
    ensures var o := OpenSpec(f, v.time, |v.bytes|, blksz).0.value;
            && o.blksz > 0 && o.segbc > 0 && (o.segbc - 1) * o.blksz < |v.bytes|
            && (|v.bytes| / o.blksz < INT_MAX ==> BlockOf(ParamsOf(v, o.blksz, o.segbc, workers), i) < |o.seg| == o.segbc)
  {
    OpenSucceedsIff(f, v.time, |v.bytes|, blksz);
    hide OpenSpec;
  }
}
