/** The metadata file of a cache: 28 bytes of header (long, off_t, int, long) and one byte per block. */
module MetaCodec {
  import opened Prelude
  import opened LittleEndian

  const EBADMSG := 74
  const HEADER := 28

  /** What the header of a metadata file says. */
  datatype Header = Header(time: int, length: int, blksz: int, segbc: int)

  predicate Representable(h: Header) {
    Fits(h.time, 8) && Fits(h.length, 8) && Fits(h.blksz, 4) && Fits(h.segbc, 8)
  }

  function PutHeader(h: Header): (r: seq<byte>)
    requires Representable(h)
    ensures |r| == HEADER
  {
    Put(h.time, 8) + Put(h.length, 8) + Put(h.blksz, 4) + Put(h.segbc, 8)
  }

  function GetHeader(file: seq<byte>): (h: Header)
    requires |file| >= HEADER
    ensures Representable(h)
  {
    Header(Get(file[..8]), Get(file[8..16]), Get(file[16..20]), Get(file[20..28]))
  }

  /** Number of blocks of a file, at most INT_MAX. */
  function Segments(length: int, blksz: int): int
    requires blksz > 0
  {
    Min((length + blksz - 1) / blksz, INT_MAX)
  }

  /** The rounding-up done by quotient and remainder. */
  lemma RoundUp(length: nat, blksz: int)
    requires blksz > 0
    ensures (length + blksz - 1) / blksz == length / blksz + (if length % blksz != 0 then 1 else 0)
  {
    var q, r := length / blksz, length % blksz;
    assert length == q * blksz + r;
    if r == 0 {
      DivModIs(length + blksz - 1, blksz, q, blksz - 1);
    } else {
      assert (q + 1) * blksz == q * blksz + blksz;
      DivModIs(length + blksz - 1, blksz, q + 1, r - 1);
    }
  }

  /** What the number of blocks means: the blocks cover the file and none of them is past its end; only a file of at
      least INT_MAX whole blocks is covered in part. */
  ghost predicate CountsBlocks(length: int, blksz: int, segbc: int)
    requires blksz > 0
  {
    && 0 < segbc <= INT_MAX
    && (segbc - 1) * blksz < length
    && (forall i :: 0 <= i < length && i / blksz >= segbc ==> segbc == INT_MAX && length / blksz >= INT_MAX)
  }

  lemma SegmentsCount(length: int, blksz: int)
    requires length > 0 && blksz > 0
    ensures CountsBlocks(length, blksz, Segments(length, blksz))
  {
    RoundUp(length, blksz);
    var q, n := length / blksz, Segments(length, blksz);
    assert length == q * blksz + length % blksz;
    LastBlock(length, blksz, n);
    forall i | 0 <= i < length && i / blksz >= n
      ensures n == INT_MAX && q >= INT_MAX
    {
      BlockBelow(i, length, blksz);
    }
  }

  lemma LastBlock(length: int, blksz: int, n: int)
    requires length > 0 && blksz > 0 && 1 <= n <= length / blksz + (if length % blksz != 0 then 1 else 0)
    ensures (n - 1) * blksz < length
  {
    var q := length / blksz;
    assert length == q * blksz + length % blksz;
    if n <= q {
      assert (n - 1) * blksz <= (q - 1) * blksz == q * blksz - blksz;
    }
  }

  lemma BlockBelow(i: nat, length: int, blksz: int)
    requires i < length && blksz > 0
    ensures i / blksz < length / blksz + (if length % blksz != 0 then 1 else 0)
  {
    var k, m := i / blksz, length / blksz + (if length % blksz != 0 then 1 else 0);
    assert i == k * blksz + i % blksz && length == length / blksz * blksz + length % blksz;
    assert length <= m * blksz;
    if k > m {
      Grows(m, k, blksz);
    }
  }

  /** Everything Meta_read checks: the file describes this version of the remote file, with the right
      number of blocks, and is long enough to hold their marks. */
  predicate Acceptable(file: seq<byte>, time: int, length: nat) {
    && |file| >= HEADER
    && var h := GetHeader(file);
       && h.time == time && h.length == length && h.length > 0
       && h.blksz > 0 && h.length <= INT64_MAX - h.blksz
       && h.segbc == Segments(h.length, h.blksz) && h.segbc > 0
       && |file| >= HEADER + h.segbc
  }

  function Marks(file: seq<byte>): seq<byte>
    requires |file| >= HEADER && 0 <= GetHeader(file).segbc <= |file| - HEADER
  {
    file[HEADER..HEADER + GetHeader(file).segbc]
  }

  /** A cache in memory that Meta_write accepts. */
  predicate Writable(h: Header, seg: seq<byte>) {
    Representable(h) && h.length > 0 && h.blksz > 0 && h.segbc == Segments(h.length, h.blksz) && h.segbc > 0 && |seg| == h.segbc
  }

  function Encode(h: Header, seg: seq<byte>): seq<byte>
    requires Representable(h)
  {
    PutHeader(h) + seg
  }

  /** fwrite from the start of a file opened for update: what is longer stays. */
  function Overwrite(file: seq<byte>, bytes: seq<byte>): seq<byte> {
    if |bytes| <= |file| then bytes + file[|bytes|..] else bytes
  }

  class Cache {
    /** The live link's modification time and length. */
    const time: int
    const length: nat
    var blksz: int
    var segbc: int
    var seg: seq<byte>

    constructor (time: int, length: nat)
      ensures this.time == time && this.length == length && blksz == 0 && segbc == 0 && seg == []
    {
      this.time, this.length := time, length;
      blksz, segbc, seg := 0, 0, [];
    }

    /** Meta_read of a file whose bytes are all readable. */
    method MetaRead(file: seq<byte>) returns (err: int)
      modifies this
      ensures err == 0 <==> Acceptable(file, time, length)
      ensures err == 0 ==> blksz == GetHeader(file).blksz && segbc == GetHeader(file).segbc && seg == Marks(file)
      ensures err == 0 ==> blksz > 0 && |seg| == segbc && CountsBlocks(length, blksz, segbc)
      ensures err != 0 ==> err == if |file| < HEADER then EIO else EBADMSG
    {
      hide CountsBlocks;
      if |file| < HEADER {
        return EIO;
      }
      var diskTime := Get(file[..8]);
      var diskLength := Get(file[8..16]);
      blksz := Get(file[16..20]);
      segbc := Get(file[20..28]);
      if diskLength <= 0 || blksz <= 0 || segbc <= 0 {
        return EBADMSG;
      }
      if diskLength > INT64_MAX - blksz {
        return EBADMSG;
      }
      if diskTime != time {
        return EBADMSG;
      }
      if diskLength != length {
        return EBADMSG;
      }
      var maxSegbc := diskLength / blksz;
      RoundUp(diskLength, blksz);
      if maxSegbc >= INT_MAX {
        maxSegbc := INT_MAX;
      } else if diskLength % blksz != 0 {
        maxSegbc := maxSegbc + 1;
      }
      if segbc != maxSegbc {
        return EBADMSG;
      }
      if |file| - HEADER < segbc {
        seg := file[HEADER..];
        return EBADMSG;
      }
      seg := file[HEADER..HEADER + segbc];
      SegmentsCount(length, blksz);
      return 0;
    }

    /** Meta_write over the present contents of the file. */
    method MetaWrite(file: seq<byte>) returns (ok: bool, file': seq<byte>)
      requires Fits(time, 8) && Fits(blksz, 4) && Fits(segbc, 8) && |seg| == segbc
      ensures ok <==> Writable(Header(time, length, blksz, segbc), seg)
      ensures file' == if ok then Overwrite(file, Encode(Header(time, length, blksz, segbc), seg)) else file
    {
      Widths();
      var expected := 0;
      if blksz > 0 && length > 0 {
        RoundUp(length, blksz);
        expected := length / blksz;
        if expected >= INT_MAX {
          expected := INT_MAX;
        } else if length % blksz != 0 {
          expected := expected + 1;
        }
      }
      if length <= 0 || length > INT64_MAX || blksz <= 0 || segbc != expected || segbc <= 0 {
        return false, file;
      }
      var bytes := Put(time, 8) + Put(length, 8) + Put(blksz, 4) + Put(segbc, 8) + seg;
      ok, file' := true, Overwrite(file, bytes);
    }
  }

  // ----- the codec's laws -----

  lemma HeaderRoundTrip(h: Header, rest: seq<byte>)
    requires Representable(h)
    ensures GetHeader(PutHeader(h) + rest) == h
  {
    var a, b, c, d := Put(h.time, 8), Put(h.length, 8), Put(h.blksz, 4), Put(h.segbc, 8);
    var f := PutHeader(h) + rest;
    assert f[..8] == a && f[8..16] == b && f[16..20] == c && f[20..28] == d;
    PutGet(h.time, 8);
    PutGet(h.length, 8);
    PutGet(h.blksz, 4);
    PutGet(h.segbc, 8);
  }

  /** Where a written file has what: the modification time at byte 0, the length at 8, the block size at 16 and the
      block count at 20, least significant byte first, and the mark of block `b` at 28 + b. */
  lemma MetaLayout(h: Header, seg: seq<byte>)
    requires Representable(h)
    ensures var f := Encode(h, seg);
            && |f| == 28 + |seg|
            && (forall i: nat :: i < 8 ==> f[i] as int == ByteOf(h.time, 8, i) && f[8 + i] as int == ByteOf(h.length, 8, i))
            && (forall i: nat :: i < 4 ==> f[16 + i] as int == ByteOf(h.blksz, 4, i))
            && (forall i: nat :: i < 8 ==> f[20 + i] as int == ByteOf(h.segbc, 8, i))
            && (forall b: nat :: b < |seg| ==> f[28 + b] == seg[b])
  {
    hide ByteOf;
    forall i: nat | i < 8
      ensures Put(h.time, 8)[i] as int == ByteOf(h.time, 8, i) && Put(h.length, 8)[i] as int == ByteOf(h.length, 8, i)
      ensures Put(h.segbc, 8)[i] as int == ByteOf(h.segbc, 8, i)
      ensures i < 4 ==> Put(h.blksz, 4)[i] as int == ByteOf(h.blksz, 4, i)
    {
      PutByte(h.time, 8, i);
      PutByte(h.length, 8, i);
      PutByte(h.segbc, 8, i);
      if i < 4 {
        PutByte(h.blksz, 4, i);
      }
    }
    hide Put;
  }

  /** Reading back what was written, over any previous contents, restores the block size, the block
      count and every mark. */
  lemma MetaRoundTrip(h: Header, seg: seq<byte>, old0: seq<byte>)
    requires Writable(h, seg) && h.length <= INT64_MAX - h.blksz
    ensures var file := Overwrite(old0, Encode(h, seg));
            Acceptable(file, h.time, h.length) && GetHeader(file) == h && Marks(file) == seg
  {
    var bytes := Encode(h, seg);
    var tail := if |bytes| <= |old0| then old0[|bytes|..] else [];
    assert Overwrite(old0, bytes) == PutHeader(h) + (seg + tail);
    HeaderRoundTrip(h, seg + tail);
  }

  /** No strict prefix of a written file is accepted, whatever the link says. */
  lemma PrefixRejected(h: Header, seg: seq<byte>, n: nat, time: int, length: nat)
    requires Writable(h, seg) && n < |Encode(h, seg)|
    ensures !Acceptable(Encode(h, seg)[..n], time, length)
  {
    var file := Encode(h, seg);
    if n >= HEADER {
      assert file[..n] == PutHeader(h) + seg[..n - HEADER];
      HeaderRoundTrip(h, seg[..n - HEADER]);
    }
  }

  lemma HeaderOfBytes(file: seq<byte>)
    requires |file| >= HEADER
    ensures PutHeader(GetHeader(file)) == file[..HEADER]
  {
    GetPut(file[..8]);
    GetPut(file[8..16]);
    GetPut(file[16..20]);
    GetPut(file[20..28]);
    assert file[..HEADER] == file[..8] + file[8..16] + file[16..20] + file[20..28];
  }

  /** Whatever is accepted is written back as the same leading bytes. */
  lemma AcceptedReencodes(file: seq<byte>, time: int, length: nat)
    requires Acceptable(file, time, length)
    ensures var h := GetHeader(file);
            Writable(h, Marks(file)) && Encode(h, Marks(file)) == file[..HEADER + h.segbc] && Overwrite(file, Encode(h, Marks(file))) == file
  {
    HeaderOfBytes(file);
    hide GetHeader, PutHeader, Segments;
    var h := GetHeader(file);
    PrefixIs(file, HEADER, h.segbc);
  }

  lemma PrefixIs(file: seq<byte>, n: nat, k: nat)
    requires n + k <= |file|
    ensures file[..n] + file[n..n + k] == file[..n + k]
  {
  }
}
