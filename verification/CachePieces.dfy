/** What a reader hands out: every way of filling a piece yields bytes of the remote file. */
module CachePieces {
  import opened Prelude
  import opened Blocks
  import opened CacheState
  import opened CacheInv

  /** The piece of a running call is non-empty and lies inside one block of the file. */
  lemma PieceInBlock(p: Params, l: Local)
    requires p.blksz > 0 && l.role.Reader? && !l.pc.Done? && LocalOk(p, l)
    ensures var c := l.role.call;
            && 0 < PieceLen(p, c) && Start(c) + PieceLen(p, c) <= c.off + c.want <= |p.remote|
            && Start(c) == Lo(p, Cur(p, l)) + Skip(p, c)
            && Need(p, c) <= Size(p, Cur(p, l))
  {
    BlockBounds(p, Start(l.role.call));
  }

  lemma FromDisk(p: Params, l: Local, file: File, io: int)
    requires p.blksz > 0 && l.role.Reader? && LocalOk(p, l) && (l.pc.Check? || l.pc.Recheck?)
    requires Coherent(p, file.seg, file.disk) && Exists(file.seg, Cur(p, l))
    ensures LocalOk(p, ServedFromDisk(p, l, file.disk, io))
  {
    PieceInBlock(p, l);
    var c := l.role.call;
    var l' := ServedFromDisk(p, l, file.disk, io);
    var n := PieceLen(p, c);
    forall i: nat | Start(c) <= i < Start(c) + n
      ensures file.disk[i] == p.remote[i]
    {
      BlockUnique(p, Cur(p, l), i);
    }
    assert l'.ret >= 0 ==> l'.buf == p.remote[Start(c)..Start(c) + l'.ret];
  }

  lemma SliceOfSlice(s: seq<byte>, at: nat, n: nat, i: nat, j: nat)
    requires at + n <= |s| && i <= j <= n
    ensures s[at..at + n][i..j] == s[at + i..at + j]
  {
    var a, b := s[at..at + n][i..j], s[at + i..at + j];
    assert |a| == |b| && forall k :: 0 <= k < |a| ==> a[k] == b[k];
  }

  /** A transfer that holds a prefix of the reader's block serves the piece once `Need` bytes are there. */
  lemma CopyIsPiece(p: Params, l: Local, data: seq<byte>)
    requires p.blksz > 0 && l.role.Reader? && !l.pc.Done? && LocalOk(p, l)
    requires var b := Cur(p, l);
             && |data| <= Size(p, b) && Lo(p, b) < |p.remote| && data == p.remote[Lo(p, b)..Lo(p, b) + |data|]
             && |data| >= Need(p, l.role.call)
    ensures var c := l.role.call;
            data[Skip(p, c)..Need(p, c)] == p.remote[Start(c)..Start(c) + PieceLen(p, c)]
  {
    PieceInBlock(p, l);
    var c := l.role.call;
    SliceOfSlice(p.remote, Lo(p, Cur(p, l)), |data|, Skip(p, c), Need(p, c));
  }

  lemma FromTransfer(p: Params, l: Local, bytes: seq<byte>)
    requires p.blksz > 0 && l.role.Reader? && (l.pc.Find? || l.pc.Asleep?) && LocalOk(p, l)
    requires var c := l.role.call; bytes == p.remote[Start(c)..Start(c) + PieceLen(p, c)] && |bytes| == PieceLen(p, c)
    ensures LocalOk(p, l.(ret := |bytes|, buf := bytes, pc := Peek))
  {
    PieceInBlock(p, l);
  }

  lemma FromDownload(p: Params, l: Local)
    requires p.blksz > 0 && l.role.Reader? && l.pc.Store? && LocalOk(p, l)
    ensures LocalOk(p, AfterStore(p, l))
    ensures l.pc.recv >= 0 ==> Usable(p, l)
  {
    PieceInBlock(p, l);
    if l.pc.recv >= 0 {
      WholeBlockIsStored(p, Cur(p, l));
      CopyIsPiece(p, l, l.pc.data);
    }
  }

  lemma NextPiece(p: Params, l: Local)
    requires p.blksz > 0 && l.role.Reader? && l.pc.EndPiece? && LocalOk(p, l)
    ensures LocalOk(p, AfterPiece(p, l))
  {
    PieceInBlock(p, l);
    hide PieceLen, Cur, HasNext;
    var c := l.role.call;
    if l.ret >= 0 {
      assert c.got + l.buf == p.remote[c.off..c.off + |c.got| + l.ret];
    }
  }

  lemma FirstPiece(p: Params, h: Hid, off: int, req: int)
    requires p.blksz > 0
    ensures LocalOk(p, NewReader(p, h, off, req))
  {
  }

  /** Moving a reader's program counter, with its answer and position as they are. */
  lemma Moved(p: Params, l: Local, pc: Pc)
    requires p.blksz > 0 && l.role.Reader? && LocalOk(p, l) && !l.pc.Done?
    requires ReaderPc(pc) && !pc.Done? && !pc.Store?
    requires HasAnswer(pc) ==> HasAnswer(l.pc)
    requires LooksAhead(pc) ==> LooksAhead(l.pc) || HasNext(p, l)
    ensures LocalOk(p, l.(pc := pc))
  {
  }
}
