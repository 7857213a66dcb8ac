/** Opening a cache: the metadata and data files of one cache key, and how Cache_open repairs whatever
    it finds there. Every file operation succeeds. */
module CacheFiles {
  import opened Prelude
  import opened LittleEndian
  import opened MetaCodec

  function Zeros(n: nat): (r: seq<byte>)
    ensures |r| == n
  {
    seq(n, _ => 0)
  }

  /** The two files; `None` is a file that does not exist. */
  datatype Files = Files(meta: Option<seq<byte>>, data: Option<seq<byte>>)

  /** The files hold a complete cache of this version of the remote file. */
  predicate ValidOnDisk(f: Files, time: int, length: nat) {
    && f.meta.Some? && Acceptable(f.meta.value, time, length)
    && f.data.Some? && |f.data.value| >= length
  }

  /** What Cache_create writes. */
  function FreshMeta(time: int, length: nat, blksz: int): seq<byte>
    requires Fits(time, 8) && Fits(length, 8) && Fits(blksz, 4) && blksz > 0 && length > 0
  {
    FitsSegments(length, blksz);
    Encode(Header(time, length, blksz, Segments(length, blksz)), Zeros(Segments(length, blksz)))
  }

  lemma FitsSegments(length: nat, blksz: int)
    requires blksz > 0 && length > 0
    ensures 0 < Segments(length, blksz) <= INT_MAX && Fits(Segments(length, blksz), 8)
  {
    RoundUp(length, blksz);
    assert length == length / blksz * blksz + length % blksz;
    var n := Segments(length, blksz);
    assert 0 < n <= INT_MAX;
    hide Segments;
    Widths();
  }

  /** A fresh cache is accepted exactly when adding a block to its length does not overflow. */
  lemma FreshAccepted(time: int, length: nat, blksz: int)
    requires Fits(time, 8) && Fits(length, 8) && Fits(blksz, 4) && blksz > 0 && length > 0
    ensures var meta := FreshMeta(time, length, blksz);
            && |meta| > HEADER
            && (Acceptable(meta, time, length) <==> length <= INT64_MAX - blksz)
            && GetHeader(meta) == Header(time, length, blksz, Segments(length, blksz))
            && Marks(meta) == Zeros(Segments(length, blksz))
  {
    FitsSegments(length, blksz);
    var h := Header(time, length, blksz, Segments(length, blksz));
    HeaderRoundTrip(h, Zeros(h.segbc));
  }

  /** An open cache: what Meta_read put into the structure, and the data file. */
  datatype Opened = Opened(blksz: int, segbc: int, seg: seq<byte>)

  /** What Cache_open promises, stated on the files it finds: a complete cache is used as it is;
      anything else is replaced by an empty one, unless that could not be read back. */
  function OpenSpec(f: Files, time: int, length: nat, blksz: int): (Option<Opened>, Files)
    requires Fits(time, 8) && Fits(length, 8) && Fits(blksz, 4) && blksz > 0
  {
    if length == 0 then (None, f)
    else if ValidOnDisk(f, time, length) then
      var h := GetHeader(f.meta.value);
      (Some(Opened(h.blksz, h.segbc, Marks(f.meta.value))), f)
    else if length <= INT64_MAX - blksz then
      (Some(Opened(blksz, Segments(length, blksz), Zeros(Segments(length, blksz)))),
       Files(Some(FreshMeta(time, length, blksz)), Some(Zeros(length))))
    else (None, Files(None, None))
  }

  /** Missing, or of length zero. */
  predicate Absent(file: Option<seq<byte>>) {
    file.None? || file.value == []
  }

  class CacheDir {
    var files: Files

    constructor (files: Files)
      ensures this.files == files
    {
      this.files := files;
    }

    /** Cache_exist: a missing or empty file counts as absent, and a file without its partner is deleted. */
    method Exist() returns (both: bool)
      modifies this
      ensures var f := old(files);
              && (both <==> !Absent(f.meta) && !Absent(f.data))
              && files == (if Absent(f.meta) && !Absent(f.data) then f.(data := None)
                           else if !Absent(f.meta) && Absent(f.data) then f.(meta := None)
                           else f)
    {
      var noMeta := files.meta.None?;
      var noData := files.data.None?;
      if !noMeta && |files.meta.value| == 0 {
        noMeta := true;
      }
      if !noData && |files.data.value| == 0 {
        noData := true;
      }
      if noMeta != noData {
        if noMeta {
          files := files.(data := None);
        }
        if noData {
          files := files.(meta := None);
        }
      }
      both := !noMeta && !noData;
    }

    /** Cache_delete */
    method Delete()
      modifies this
      ensures files == Files(None, None)
    {
      files := Files(None, None);
    }

    /** Cache_create for a link of positive length, after Cache_delete. */
    method Create(time: int, length: nat, blksz: int) returns (ok: bool)
      requires Fits(time, 8) && Fits(length, 8) && Fits(blksz, 4) && blksz > 0 && length > 0
      requires files == Files(None, None)
      modifies this
      ensures ok && files == Files(Some(FreshMeta(time, length, blksz)), Some(Zeros(length)))
      ensures |files.meta.value| == HEADER + GetHeader(files.meta.value).segbc
      ensures CountsBlocks(length, blksz, GetHeader(files.meta.value).segbc)
    {
      hide CountsBlocks;
      SegmentsCount(length, blksz);
      Widths();
      FitsSegments(length, blksz);
      RoundUp(length, blksz);
      var cf := new Cache(time, length);
      cf.blksz := blksz;
      var calculated := length / blksz;
      if calculated >= INT_MAX {
        cf.segbc := INT_MAX;
      } else {
        cf.segbc := calculated;
        if length % blksz != 0 {
          cf.segbc := cf.segbc + 1;
        }
      }
      cf.seg := Zeros(cf.segbc);
      files := files.(meta := Some([]));
      var written, meta := cf.MetaWrite([]);
      files := files.(meta := Some(meta));
      files := files.(data := Some(Zeros(length)));
      FreshAccepted(time, length, blksz);
      ok := Exist();
    }

    /** Cache_open for a link not open yet: up to two attempts, the second from scratch. */
    method Open(time: int, length: nat, blksz: int) returns (r: Option<Opened>)
      requires Fits(time, 8) && Fits(length, 8) && Fits(blksz, 4) && blksz > 0
      modifies this
      ensures (r, files) == OpenSpec(old(files), time, length, blksz)
      ensures r.Some? ==> r.value.blksz > 0 && |r.value.seg| == r.value.segbc && CountsBlocks(length, r.value.blksz, r.value.segbc)
    {
      hide CountsBlocks;
      if length == 0 {
        return None;
      }
      FreshAccepted(time, length, blksz);
      Widths();
      var attempt := 0;
      while attempt < 2
        invariant 0 <= attempt <= 2
        invariant attempt == 0 ==> files == old(files)
        invariant attempt > 0 ==> !ValidOnDisk(old(files), time, length) && files == Files(None, None)
        invariant attempt == 2 ==> length > INT64_MAX - blksz
      {
        var both := Exist();
        if !both {
          Delete();
          var ok := Create(time, length, blksz);
          if !ok {
            return None;
          }
        }
        var cf := new Cache(time, length);
        var err := cf.MetaRead(files.meta.value);
        if err == 0 && length <= |files.data.value| {
          return Some(Opened(cf.blksz, cf.segbc, cf.seg));
        }
        Delete();
        attempt := attempt + 1;
      }
      r := None;
    }
  }

  // ----- what that means -----

  /** Opening succeeds, within its two attempts, exactly when the files are complete or a fresh cache of
      the configured block size could be read back. */
  lemma OpenSucceedsIff(f: Files, time: int, length: nat, blksz: int)
    requires Fits(time, 8) && Fits(length, 8) && Fits(blksz, 4) && blksz > 0 && length > 0
    ensures OpenSpec(f, time, length, blksz).0.Some? <==> ValidOnDisk(f, time, length) || length <= INT64_MAX - blksz
    ensures OpenSpec(f, time, length, blksz).0.Some? ==>
              var (r, f') := OpenSpec(f, time, length, blksz);
              && ValidOnDisk(f', time, length)
              && GetHeader(f'.meta.value) == Header(time, length, r.value.blksz, r.value.segbc)
              && Marks(f'.meta.value) == r.value.seg
              && r.value.segbc == Segments(length, r.value.blksz) && |r.value.seg| == r.value.segbc
              && r.value.blksz > 0 && length <= INT64_MAX - r.value.blksz
              && CountsBlocks(length, r.value.blksz, r.value.segbc)
  {
    hide CountsBlocks;
    FreshAccepted(time, length, blksz);
    var r := OpenSpec(f, time, length, blksz).0;
    if r.Some? {
      SegmentsCount(length, r.value.blksz);
    }
  }

  /** A file within one block of the largest off_t cannot be cached: an empty cache directory is created
      and rejected twice. */
  lemma TooLongToCache()
    ensures var length, blksz := INT64_MAX - 5, 8;
            Fits(length, 8) && Fits(blksz, 4) && OpenSpec(Files(None, None), 0, length, blksz).0.None?
  {
    Widths();
  }

  /** Opening again finds what opening left: nothing is repaired twice. */
  lemma OpenIsStable(f: Files, time: int, length: nat, blksz: int, blksz': int)
    requires Fits(time, 8) && Fits(length, 8) && Fits(blksz, 4) && blksz > 0 && Fits(blksz', 4) && blksz' > 0 && length > 0
    requires OpenSpec(f, time, length, blksz).0.Some?
    ensures var (r, f') := OpenSpec(f, time, length, blksz); OpenSpec(f', time, length, blksz') == (r, f')
  {
    OpenSucceedsIff(f, time, length, blksz);
  }

  /** A changed time or length starts over with an all-empty bitmap of the configured block size. */
  lemma ChangedStartsOver(f: Files, time: int, length: nat, blksz: int, time': int, length': nat)
    requires Fits(time', 8) && Fits(length', 8) && Fits(blksz, 4) && blksz > 0 && length' > 0
    requires ValidOnDisk(f, time, length) && (time', length') != (time, length) && length' <= INT64_MAX - blksz
    ensures OpenSpec(f, time', length', blksz).0 == Some(Opened(blksz, Segments(length', blksz), Zeros(Segments(length', blksz))))
  {
  }
}
