/** Cache_read: one request cut into pieces that never leave a block, in 64-bit arithmetic. */
module ReadLoop {
  import opened Prelude
  import opened Blocks
  import opened Buffers

  newtype int64 = x: int | -0x8000_0000_0000_0000 <= x < 0x8000_0000_0000_0000

  datatype Piece = Piece(start: nat, len: nat)

  /** What Cache_read_segment answers for one piece: its return value and the bytes it has copied. */
  datatype Answer = Answer(ret: int64, bytes: seq<byte>)

  /** Where the piece at `start` ends: with its block, or with the request. */
  function BlockStop(blksz: nat, start: nat, stop: nat): (end: nat)
    requires blksz > 0
    ensures start < stop ==> start < end <= stop
  {
    Min(start / blksz * blksz + blksz, stop)
  }

  /** The pieces of the request `[start, stop)`. */
  function Cut(blksz: nat, start: nat, stop: nat): seq<Piece>
    requires blksz > 0
    decreases stop - start
  {
    if start >= stop then []
    else
      var end := BlockStop(blksz, start, stop);
      [Piece(start, end - start)] + Cut(blksz, end, stop)
  }

  ghost predicate InBlock(piece: Piece, blksz: nat)
    requires blksz > 0
  {
    piece.len > 0 && piece.start / blksz == (piece.start + piece.len - 1) / blksz
  }

  /** The pieces are non-empty, follow each other without gap or overlap from start to stop, and each
      lies inside one block. */
  ghost predicate Tiles(pieces: seq<Piece>, blksz: nat, start: nat, stop: nat)
    requires blksz > 0
  {
    && (start < stop ==> pieces != [] && pieces[0].start == start && pieces[|pieces| - 1].start + pieces[|pieces| - 1].len == stop)
    && (start >= stop ==> pieces == [])
    && (forall k :: 0 <= k < |pieces| ==> InBlock(pieces[k], blksz))
    && (forall k :: 0 < k < |pieces| ==> pieces[k].start == pieces[k - 1].start + pieces[k - 1].len)
  }

  lemma InsideBlock(blksz: nat, start: nat, stop: nat)
    requires blksz > 0 && start < stop
    ensures InBlock(Piece(start, BlockStop(blksz, start, stop) - start), blksz)
  {
    var q := start / blksz;
    var last := BlockStop(blksz, start, stop) - 1;
    DivModIs(last, blksz, q, last - q * blksz);
  }

  lemma TilesJoin(first: Piece, rest: seq<Piece>, blksz: nat, end: nat, stop: nat)
    requires blksz > 0 && InBlock(first, blksz) && first.start + first.len == end <= stop && Tiles(rest, blksz, end, stop)
    ensures Tiles([first] + rest, blksz, first.start, stop)
  {
    assert first.len > 0;
    hide InBlock;
    var all := [first] + rest;
    assert all[|all| - 1] == if rest == [] then first else rest[|rest| - 1];
    forall k | 0 <= k < |all|
      ensures InBlock(all[k], blksz) && (k > 0 ==> all[k].start == all[k - 1].start + all[k - 1].len)
    {
      if k > 0 {
        assert all[k] == rest[k - 1];
      }
    }
  }

  lemma {:induction false} CutTiles(blksz: nat, start: nat, stop: nat)
    requires blksz > 0
    ensures Tiles(Cut(blksz, start, stop), blksz, start, stop)
    decreases stop - start
  {
    if start < stop {
      hide BlockStop, InBlock, Tiles;
      var end := BlockStop(blksz, start, stop);
      CutTiles(blksz, end, stop);
      InsideBlock(blksz, start, stop);
      TilesJoin(Piece(start, end - start), Cut(blksz, end, stop), blksz, end, stop);
    }
  }

  /** The pieces are those the cache machine serves: block by block, up to the end of the request. */
  lemma CutIsPieceEnd(p: Params, start: nat, stop: nat)
    requires p.blksz > 0 && start < stop
    ensures Cut(p.blksz, start, stop)[0] == Piece(start, PieceEnd(p, start, stop) - start)
    ensures Cut(p.blksz, start, stop)[1..] == Cut(p.blksz, PieceEnd(p, start, stop), stop)
  {
  }

  /** What the loop returns for a list of pieces: it stops at an error and after a short answer. */
  function Gather(pieces: seq<Piece>, answer: Piece -> Answer): (r: (int, seq<byte>))
    ensures r.0 < 0 ==> r.1 == []
  {
    if pieces == [] then (0, []) else FollowedBy(answer(pieces[0]), pieces[0].len, Gather(pieces[1..], answer))
  }

  /** The answer `a` for a piece of `len` bytes, and after a full answer what the remaining pieces give. */
  function FollowedBy(a: Answer, len: nat, rest: (int, seq<byte>)): (int, seq<byte>) {
    if a.ret < 0 then (a.ret as int, [])
    else if a.ret as int < len then (a.ret as int, a.bytes)
    else if rest.0 < 0 then (rest.0, [])
    else (a.ret as int + rest.0, a.bytes + rest.1)
  }

  /** An answer is an error, or at most the piece asked for with that many bytes. */
  ghost predicate Sound(answer: Piece -> Answer) {
    forall p: Piece :: answer(p).ret >= 0 ==> answer(p).ret as int <= p.len && |answer(p).bytes| == answer(p).ret as int
  }

  lemma GatherStep(blksz: nat, start: nat, stop: nat, answer: Piece -> Answer)
    requires blksz > 0 && start < stop
    ensures var end := BlockStop(blksz, start, stop);
            Gather(Cut(blksz, start, stop), answer)
            == FollowedBy(answer(Piece(start, end - start)), end - start, Gather(Cut(blksz, end, stop), answer))
  {
    hide FollowedBy;
    var end := BlockStop(blksz, start, stop);
    var pieces := Cut(blksz, start, stop);
    assert pieces[0] == Piece(start, end - start) && pieces[1..] == Cut(blksz, end, stop);
  }

  /** The first `n` bytes of the remote file from `start` on, and no more than up to `stop`. */
  ghost predicate IsPlain(remote: seq<byte>, start: nat, stop: nat, n: int, bytes: seq<byte>)
    requires start <= stop <= |remote|
  {
    n >= 0 ==> n <= stop - start && bytes == remote[start..start + n]
  }

  lemma PlainStep(remote: seq<byte>, start: nat, end: nat, stop: nat, a: Answer, rest: (int, seq<byte>))
    requires start <= end <= stop <= |remote| && a.ret as int <= end - start
    requires IsPlain(remote, start, end, a.ret as int, a.bytes) && IsPlain(remote, end, stop, rest.0, rest.1)
    ensures var r := FollowedBy(a, end - start, rest); IsPlain(remote, start, stop, r.0, r.1)
  {
    if a.ret as int == end - start && rest.0 >= 0 {
      assert remote[start..end] + remote[end..end + rest.0] == remote[start..end + rest.0];
    }
  }

  /** Every answer is a prefix of its piece of the remote file. */
  ghost predicate Faithful(remote: seq<byte>, answer: Piece -> Answer)
    requires Sound(answer)
  {
    forall p: Piece :: p.start + p.len <= |remote| && answer(p).ret >= 0 ==>
      answer(p).bytes == remote[p.start..p.start + answer(p).ret as int]
  }

  lemma AnswerAt(remote: seq<byte>, answer: Piece -> Answer, p: Piece)
    requires Sound(answer) && Faithful(remote, answer) && p.start + p.len <= |remote|
    ensures answer(p).ret as int <= p.len && IsPlain(remote, p.start, p.start + p.len, answer(p).ret as int, answer(p).bytes)
  {
  }

  lemma {:induction false} GatherPrefix(remote: seq<byte>, blksz: nat, start: nat, stop: nat, answer: Piece -> Answer)
    requires blksz > 0 && start <= stop <= |remote| && Sound(answer) && Faithful(remote, answer)
    ensures var (n, bytes) := Gather(Cut(blksz, start, stop), answer); IsPlain(remote, start, stop, n, bytes)
    decreases stop - start
  {
    if start == stop {
      NoPieces(blksz, start, stop, answer);
    } else {
      hide BlockStop, Sound, Faithful, IsPlain;
      var end := BlockStop(blksz, start, stop);
      GatherStep(blksz, start, stop, answer);
      GatherPrefix(remote, blksz, end, stop, answer);
      AnswerAt(remote, answer, Piece(start, end - start));
      hide Gather, Cut;
      PlainStep(remote, start, end, stop, answer(Piece(start, end - start)), Gather(Cut(blksz, end, stop), answer));
    }
  }

  /** Full answers to all pieces add up to the request. */
  lemma {:induction false} GatherFull(blksz: nat, start: nat, stop: nat, answer: Piece -> Answer)
    requires blksz > 0 && start <= stop && forall p: Piece :: answer(p).ret as int == p.len
    ensures Gather(Cut(blksz, start, stop), answer).0 == stop - start
    decreases stop - start
  {
    if start < stop {
      hide BlockStop;
      GatherStep(blksz, start, stop, answer);
      GatherFull(blksz, BlockStop(blksz, start, stop), stop, answer);
      hide Gather, Cut;
    }
  }

  /** Where the loop stops: at the first piece that is not answered in full, with its error, or with everything
      before it and what came of it. */
  lemma {:induction false} GatherStops(blksz: nat, start: nat, stop: nat, answer: Piece -> Answer, k: nat)
    requires blksz > 0 && start < stop && k < |Cut(blksz, start, stop)| && Sound(answer)
    requires forall j :: 0 <= j < k ==> answer(Cut(blksz, start, stop)[j]).ret as int == Cut(blksz, start, stop)[j].len
    requires answer(Cut(blksz, start, stop)[k]).ret as int < Cut(blksz, start, stop)[k].len
    ensures var piece := Cut(blksz, start, stop)[k]; var m := answer(piece).ret as int;
            piece.start >= start && Gather(Cut(blksz, start, stop), answer).0 == if m < 0 then m else piece.start - start + m
    decreases k
  {
    hide BlockStop;
    var end := BlockStop(blksz, start, stop);
    var pieces, rest := Cut(blksz, start, stop), Cut(blksz, end, stop);
    assert pieces == [Piece(start, end - start)] + rest;
    GatherStep(blksz, start, stop, answer);
    assert pieces[0] == Piece(start, end - start);
    hide Gather, Cut;
    if k > 0 {
      assert forall j :: 0 <= j < |rest| ==> pieces[j + 1] == rest[j];
      NotPast(blksz, end, stop, rest);
      GatherStops(blksz, end, stop, answer, k - 1);
    }
  }

  lemma NotPast(blksz: nat, start: nat, stop: nat, rest: seq<Piece>)
    requires blksz > 0 && rest == Cut(blksz, start, stop) && rest != []
    ensures start < stop
  {
  }

  lemma SoundAt(answer: Piece -> Answer, p: Piece)
    requires Sound(answer)
    ensures answer(p).ret >= 0 ==> answer(p).ret as int <= p.len && |answer(p).bytes| == answer(p).ret as int
  {
  }

  /** If every answer is a prefix of its piece of the remote file, so is the whole read. */
  lemma GatherIsPlain(remote: seq<byte>, blksz: nat, start: nat, stop: nat, answer: Piece -> Answer)
    requires blksz > 0 && start <= stop <= |remote| && Sound(answer) && Faithful(remote, answer)
    ensures var (n, bytes) := Gather(Cut(blksz, start, stop), answer);
            && (n >= 0 ==> n <= stop - start && bytes == remote[start..start + n])
            && ((forall p: Piece :: answer(p).ret as int == p.len) ==> n == stop - start)
  {
    hide Gather, Cut;
    GatherPrefix(remote, blksz, start, stop, answer);
    if forall p: Piece :: answer(p).ret as int == p.len {
      GatherFull(blksz, start, stop, answer);
    }
  }

  /** End of the piece at `start`. Its block end, which is where the following block starts, is a valid
      off_t, because `length` passed the overflow guard of Meta_read. */
  method PieceStop(length: nat, blksz: int64, start: int64, len: int64) returns (end: int64)
    requires 0 < blksz && length <= INT64_MAX - blksz as int
    requires 0 <= start && 0 < len && start as int + len as int <= length
    ensures end as int == BlockStop(blksz as int, start as int, start as int + len as int)
    ensures start < end <= start + len
  {
    BlockFits(start as int, blksz as int);
    end := start / blksz * blksz + blksz;
    if end > start + len {
      end := start + len;
    }
  }

  /** What the loop has so far, followed by what the remaining pieces give, is the whole answer. */
  ghost predicate OnTrack(all: (int, seq<byte>), got: seq<byte>, rest: (int, seq<byte>)) {
    all == if rest.0 < 0 then (rest.0, []) else (|got| + rest.0, got + rest.1)
  }

  /** Cache_read for a link of `length` bytes, which passed the overflow guard of Meta_read. */
  method CacheRead(length: nat, blksz: int64, buf: array<byte>, req: int64, off: int64, answer: Piece -> Answer) returns (r: int64)
    requires 0 < blksz && length <= INT64_MAX - blksz as int
    requires req >= 0 ==> buf.Length >= req as int
    requires Sound(answer)
    modifies buf
    ensures req < 0 ==> r as int == -EINVAL
    ensures req >= 0 && (off < 0 || off as int >= length) ==> r == 0
    ensures req >= 0 && 0 <= off as int < length ==>
              var stop := off as int + Min(req as int, length - off as int);
              var (n, bytes) := Gather(Cut(blksz as int, off as int, stop), answer);
              r as int == n && (n >= 0 ==> |bytes| == n <= buf.Length && buf[..n] == bytes)
  {
    hide Gather, Cut, BlockStop, Sound;
    if req < 0 {
      return (-EINVAL) as int64;
    }
    if off < 0 || off as int >= length {
      return 0;
    }
    var len := req;
    var remaining := length - off as int;
    if len as int > remaining {
      len := remaining as int64;
    }
    ghost var b, stop := blksz as int, off as int + len as int;
    ghost var all := Gather(Cut(b, off as int, stop), answer);
    if len <= 0 {
      NoPieces(b, off as int, stop, answer);
      return 0;
    }
    var send: int64 := 0;
    var start := off;
    ghost var got: seq<byte> := [];
    assert [] + all.1 == all.1;
    while len > 0
      invariant 0 <= len && off <= start && start as int + len as int == stop <= length && stop - off as int <= buf.Length
      invariant send as int == |got| == start as int - off as int && buf[..|got|] == got
      invariant OnTrack(all, got, Gather(Cut(b, start as int, stop), answer))
      decreases len
    {
      var end := PieceStop(length, blksz, start, len);
      GatherStep(b, start as int, stop, answer);
      var a := answer(Piece(start as int, (end - start) as int));
      SoundAt(answer, Piece(start as int, (end - start) as int));
      if a.ret < 0 {
        return a.ret;
      }
      CopyInto(buf, (start - off) as int, a.bytes);
      send := send + a.ret;
      if a.ret < end - start {
        return send;
      }
      OnTrackNext(all, got, a.bytes, Gather(Cut(b, end as int, stop), answer));
      got := got + a.bytes;
      len := len - (end - start);
      start := end;
    }
    NoPieces(b, start as int, stop, answer);
    r := send;
  }

  lemma OnTrackNext(all: (int, seq<byte>), got: seq<byte>, more: seq<byte>, rest: (int, seq<byte>))
    requires OnTrack(all, got, if rest.0 < 0 then (rest.0, []) else (|more| + rest.0, more + rest.1))
    ensures OnTrack(all, got + more, rest)
  {
    assert got + (more + rest.1) == (got + more) + rest.1;
  }

  lemma NoPieces(blksz: nat, start: nat, stop: nat, answer: Piece -> Answer)
    requires blksz > 0 && start >= stop
    ensures Gather(Cut(blksz, start, stop), answer) == (0, [])
  {
  }

  lemma BlockFits(start: nat, blksz: nat)
    requires blksz > 0
    ensures 0 <= start / blksz * blksz <= start < start / blksz * blksz + blksz
  {
  }
}
